/**
 * DeviceAppsPlugin.kt: the Kotlin handler. Unlike the Java one it tolerates
 * a null context and null boolean options, loads icons through
 * `getApplicationIcon` (a failure only leaves the icon out), reports
 * `longVersionCode`, and does not implement `getAppByApkFiles`.
 */
module DeviceAppsPluginKt {
  import opened Wrappers
  import opened Android
  import opened PluginApi
  import opened Sequences
  import Java = DeviceAppsPluginJava

  /** `isSystemApp`: `flags and (FLAG_SYSTEM or FLAG_UPDATED_SYSTEM_APP) != 0`. */
  function IsSystemApp(pInfo: PackageInfo): (r: bool)
    ensures r <==> (pInfo.applicationInfo.flags & FLAG_SYSTEM != 0
                    || pInfo.applicationInfo.flags & FLAG_UPDATED_SYSTEM_APP != 0)
  {
    pInfo.applicationInfo.flags & (FLAG_SYSTEM | FLAG_UPDATED_SYSTEM_APP) != 0
  }

  // ---------------------------------------------------------------------
  // Argument reading and validation (`onMethodCall`)
  // ---------------------------------------------------------------------

  /** `call.argument<Boolean?>(key)` is read only when present; it must then be a Boolean or null. */
  predicate BooleanArgReadable(call: MethodCall, key: string) {
    key in call.arguments ==> call.arguments[key].ABool? || call.arguments[key].ANull?
  }

  /** `call.hasArgument(key) && (call.argument<Boolean?>(key) ?: false)`. */
  function BooleanArg(call: MethodCall, key: string): (r: bool)
    requires BooleanArgReadable(call, key)
    ensures r <==> key in call.arguments && call.arguments[key] == ABool(true)
  {
    key in call.arguments && match call.arguments[key] case ABool(b) => b case _ => false
  }

  /** `call.argument<String?>("package_name")` must be a String or null. */
  predicate PackageNameReadable(call: MethodCall) {
    ARG_PACKAGE_NAME in call.arguments ==>
      call.arguments[ARG_PACKAGE_NAME].AString? || call.arguments[ARG_PACKAGE_NAME].ANull?
  }

  /** `call.argument<String?>("package_name") ?: ""`. */
  function PackageNameArg(call: MethodCall): (r: string)
    requires PackageNameReadable(call)
    ensures ARG_PACKAGE_NAME in call.arguments && call.arguments[ARG_PACKAGE_NAME].AString? ==>
              r == call.arguments[ARG_PACKAGE_NAME].s
    ensures (ARG_PACKAGE_NAME !in call.arguments || call.arguments[ARG_PACKAGE_NAME].ANull?) ==> r == ""
  {
    if ARG_PACKAGE_NAME in call.arguments then
      match call.arguments[ARG_PACKAGE_NAME] case AString(s) => s case _ => ""
    else ""
  }

  /** `!call.hasArgument("package_name") || TextUtils.isEmpty(... ?: "")`. */
  predicate PackageNameMissing(call: MethodCall)
    requires PackageNameReadable(call)
  {
    ARG_PACKAGE_NAME !in call.arguments || IsEmpty(PackageNameArg(call))
  }

  /** The calls `onMethodCall` handles without a failed cast. */
  predicate Readable(call: MethodCall) {
    if call.methodName == METHOD_GET_INSTALLED_APPS then
      && BooleanArgReadable(call, ARG_SYSTEM_APPS)
      && BooleanArgReadable(call, ARG_INCLUDE_APP_ICONS)
      && BooleanArgReadable(call, ARG_ONLY_APPS_WITH_LAUNCH_INTENT)
    else if call.methodName == METHOD_GET_APP then
      PackageNameReadable(call) && (!PackageNameMissing(call) ==> BooleanArgReadable(call, ARG_INCLUDE_APP_ICON))
    else if call.methodName == METHOD_IS_APP_INSTALLED || call.methodName == METHOD_OPEN_APP then
      PackageNameReadable(call)
    else true
  }

  /**
   * The `when` dispatch: four methods are known; those naming a package
   * reject a missing, null or empty name; everything else, including
   * `getAppByApkFiles`, is not implemented.
   */
  function Dispatch(call: MethodCall): (r: Decision)
    requires Readable(call)
    ensures r.Reject? ==> r.code == ERROR_CODE && r.message == EMPTY_PACKAGE_NAME
    ensures r.Execute? ==> CommandMethod(r.command) == call.methodName && !r.command.GetAppByApkFiles?
    ensures r.Unsupported? <==>
              call.methodName !in {METHOD_GET_INSTALLED_APPS, METHOD_GET_APP, METHOD_IS_APP_INSTALLED, METHOD_OPEN_APP}
    ensures call.methodName in {METHOD_GET_APP, METHOD_IS_APP_INSTALLED, METHOD_OPEN_APP} ==>
              (r.Reject? <==> PackageNameMissing(call))
    ensures call.methodName == METHOD_GET_INSTALLED_APPS ==> !r.Reject?
    ensures r.Execute? && (r.command.GetApp? || r.command.IsAppInstalled? || r.command.OpenApp?) ==>
              r.command.packageName == PackageNameArg(call) && !IsEmpty(r.command.packageName)
    ensures r.Execute? && r.command.GetInstalledApps? ==>
              r.command == GetInstalledApps(BooleanArg(call, ARG_SYSTEM_APPS), BooleanArg(call, ARG_INCLUDE_APP_ICONS),
                                            BooleanArg(call, ARG_ONLY_APPS_WITH_LAUNCH_INTENT))
    ensures r.Execute? && r.command.GetApp? ==> r.command.includeAppIcon == BooleanArg(call, ARG_INCLUDE_APP_ICON)
  {
    if call.methodName == METHOD_GET_INSTALLED_APPS then
      var systemApps := BooleanArg(call, ARG_SYSTEM_APPS);
      var includeAppIcons := BooleanArg(call, ARG_INCLUDE_APP_ICONS);
      var onlyAppsWithLaunchIntent := BooleanArg(call, ARG_ONLY_APPS_WITH_LAUNCH_INTENT);
      Execute(GetInstalledApps(systemApps, includeAppIcons, onlyAppsWithLaunchIntent))
    else if call.methodName == METHOD_GET_APP then
      if PackageNameMissing(call) then Reject(ERROR_CODE, EMPTY_PACKAGE_NAME)
      else Execute(GetApp(PackageNameArg(call), BooleanArg(call, ARG_INCLUDE_APP_ICON)))
    else if call.methodName == METHOD_IS_APP_INSTALLED then
      if PackageNameMissing(call) then Reject(ERROR_CODE, EMPTY_PACKAGE_NAME)
      else Execute(IsAppInstalled(PackageNameArg(call)))
    else if call.methodName == METHOD_OPEN_APP then
      if PackageNameMissing(call) then Reject(ERROR_CODE, EMPTY_PACKAGE_NAME)
      else Execute(OpenApp(PackageNameArg(call)))
    else Unsupported
  }

  /** Options sent as null read as false, as absent ones do. */
  lemma NullOptionsAreFalse(call: MethodCall)
    requires call.methodName == METHOD_GET_INSTALLED_APPS
    requires forall key :: key in call.arguments ==> call.arguments[key] == ANull
    ensures Readable(call) && Dispatch(call) == Execute(GetInstalledApps(false, false, false))
  {
  }

  /**
   * On every call both handlers accept, the Kotlin one decides as the Java
   * one does, except that it does not implement `getAppByApkFiles`.
   */
  lemma DispatchAgreesWithJava(call: MethodCall)
    requires Readable(call) && Java.Readable(call)
    ensures call.methodName == METHOD_GET_APP_BY_APK_FILES ==> Dispatch(call) == Unsupported
    ensures call.methodName != METHOD_GET_APP_BY_APK_FILES ==> Dispatch(call) == Java.Dispatch(call)
  {
    if PackageNameReadable(call) && Java.PackageNameReadable(call) && ARG_PACKAGE_NAME in call.arguments {
      assert call.arguments[ARG_PACKAGE_NAME].AString?;
      assert PackageNameArg(call) == Java.ArgToString(call.arguments[ARG_PACKAGE_NAME]);
    }
  }

  // ---------------------------------------------------------------------
  // App records (`getAppData`)
  // ---------------------------------------------------------------------

  /**
   * `m` is the record `getAppData` builds: like the Java one, but with
   * `longVersionCode`, and with `app_icon` only when the icon was asked for
   * and `getApplicationIcon` found the package.
   */
  predicate IsAppData(m: AppData, pm: PackageManager, pInfo: PackageInfo, includeAppIcon: bool, sdkInt: int) {
    var ai := pInfo.applicationInfo;
    var hasIcon := includeAppIcon && pInfo.packageName in pm.applicationIcons;
    && m.Keys == RecordKeys(sdkInt >= VERSION_CODES_O, hasIcon)
    && m[APP_NAME] == VString(ai.loadedLabel)
    && m[APK_FILE_PATH] == VString(ai.sourceDir)
    && m[PACKAGE_NAME] == VString(pInfo.packageName)
    && m[VERSION_CODE] == VInt(pInfo.longVersionCode)
    && m[VERSION_NAME] == VString(pInfo.versionName)
    && m[DATA_DIR] == VString(ai.dataDir)
    && m[SYSTEM_APP] == VBool(IsSystemApp(pInfo))
    && m[INSTALL_TIME] == VInt(pInfo.firstInstallTime)
    && m[UPDATE_TIME] == VInt(pInfo.lastUpdateTime)
    && (sdkInt >= VERSION_CODES_O ==> m[CATEGORY] == VInt(ai.category))
    && (hasIcon ==> m[APP_ICON] == VString(pm.applicationIcons[pInfo.packageName]))
  }

  /**
   * `getAppData`: fills a fresh map; a NameNotFoundException from the icon
   * lookup only skips `app_icon`. Reading `longVersionCode` calls
   * `getLongVersionCode()`, which older platforms lack: the record is built
   * only from API 28 on.
   */
  method GetAppData(pm: PackageManager, pInfo: PackageInfo, includeAppIcon: bool, sdkInt: int) returns (m: AppData)
    requires sdkInt >= VERSION_CODES_P
    ensures IsAppData(m, pm, pInfo, includeAppIcon, sdkInt)
  {
    var ai := pInfo.applicationInfo;
    m := map[];
    m := m[APP_NAME := VString(ai.loadedLabel)];
    m := m[APK_FILE_PATH := VString(ai.sourceDir)];
    m := m[PACKAGE_NAME := VString(pInfo.packageName)];
    m := m[VERSION_CODE := VInt(pInfo.longVersionCode)];
    m := m[VERSION_NAME := VString(pInfo.versionName)];
    m := m[DATA_DIR := VString(ai.dataDir)];
    m := m[SYSTEM_APP := VBool(IsSystemApp(pInfo))];
    m := m[INSTALL_TIME := VInt(pInfo.firstInstallTime)];
    m := m[UPDATE_TIME := VInt(pInfo.lastUpdateTime)];
    assert m.Keys == BaseKeys();
    if sdkInt >= VERSION_CODES_O {
      m := m[CATEGORY := VInt(ai.category)];
    }
    if includeAppIcon {
      if pInfo.packageName in pm.applicationIcons {
        m := m[APP_ICON := VString(pm.applicationIcons[pInfo.packageName])];
      }
    }
  }

  /**
   * A failed icon lookup costs only the icon: the record keeps every other
   * key, and differs from the Java record only in the version code and icon.
   */
  lemma IconFailureKeepsRecord(m: AppData, pm: PackageManager, pInfo: PackageInfo, includeAppIcon: bool, sdkInt: int)
    requires IsAppData(m, pm, pInfo, includeAppIcon, sdkInt)
    requires pInfo.packageName !in pm.applicationIcons
    requires sdkInt >= VERSION_CODES_P
    ensures APP_ICON !in m && BaseKeys() <= m.Keys
    ensures CATEGORY in m && m[CATEGORY] == VInt(pInfo.applicationInfo.category)
    ensures Java.IsAppData(m[VERSION_CODE := VInt(pInfo.versionCode)], pInfo, false, sdkInt)
  {
    RecordKeysSpec(sdkInt >= VERSION_CODES_O, false);
    var j := m[VERSION_CODE := VInt(pInfo.versionCode)];
    assert j.Keys == m.Keys;
  }

  /** `ms[k]` is the record of `ps[k]` for every `k`. */
  predicate AreAppData(ms: seq<AppData>, pm: PackageManager, ps: seq<PackageInfo>, includeAppIcon: bool, sdkInt: int) {
    |ms| == |ps| && forall k :: 0 <= k < |ms| ==> IsAppData(ms[k], pm, ps[k], includeAppIcon, sdkInt)
  }

  lemma AreAppDataSnoc(ms: seq<AppData>, pm: PackageManager, ps: seq<PackageInfo>, m: AppData, p: PackageInfo,
                       includeAppIcon: bool, sdkInt: int)
    requires AreAppData(ms, pm, ps, includeAppIcon, sdkInt) && IsAppData(m, pm, p, includeAppIcon, sdkInt)
    ensures AreAppData(ms + [m], pm, ps + [p], includeAppIcon, sdkInt)
  {
  }

  // ---------------------------------------------------------------------
  // Queries; `ctx` is the plugin's `context?.packageManager`
  // ---------------------------------------------------------------------

  /** The `getInstalledApps` loop's test for keeping a package. */
  function KeepInstalled(pm: PackageManager, includeSystemApps: bool, onlyAppsWithLaunchIntent: bool): PackageInfo -> bool {
    p => (includeSystemApps || !IsSystemApp(p))
         && (!onlyAppsWithLaunchIntent || GetLaunchIntentForPackage(pm, p.packageName).Some?)
  }

  /** Both handlers keep the same packages, in the same order. */
  lemma SameSelectionAsJava(pm: PackageManager, includeSystemApps: bool, onlyAppsWithLaunchIntent: bool)
    ensures Filter(pm.installedPackages, KeepInstalled(pm, includeSystemApps, onlyAppsWithLaunchIntent))
         == Filter(pm.installedPackages, Java.KeepInstalled(pm, includeSystemApps, onlyAppsWithLaunchIntent))
  {
    FilterAgrees(pm.installedPackages, KeepInstalled(pm, includeSystemApps, onlyAppsWithLaunchIntent),
                 Java.KeepInstalled(pm, includeSystemApps, onlyAppsWithLaunchIntent));
  }

  /**
   * `getInstalledApps`: no context gives an empty list; otherwise one record
   * per kept installed package, in order.
   */
  method GetInstalledAppsList(ctx: Option<PackageManager>, sdkInt: int, includeSystemApps: bool,
                              includeAppIcons: bool, onlyAppsWithLaunchIntent: bool)
    returns (installedApps: seq<AppData>)
    requires ctx.Some? && Filter(ctx.value.installedPackages,
                                 KeepInstalled(ctx.value, includeSystemApps, onlyAppsWithLaunchIntent)) != []
             ==> sdkInt >= VERSION_CODES_P
    ensures ctx.None? ==> installedApps == []
    ensures ctx.Some? ==>
              var kept := Filter(ctx.value.installedPackages, KeepInstalled(ctx.value, includeSystemApps, onlyAppsWithLaunchIntent));
              && |installedApps| == |kept|
              && forall i :: 0 <= i < |kept| ==> IsAppData(installedApps[i], ctx.value, kept[i], includeAppIcons, sdkInt)
  {
    if ctx.None? {
      return [];
    }
    var pm := ctx.value;
    var apps := pm.installedPackages;
    var keep := KeepInstalled(pm, includeSystemApps, onlyAppsWithLaunchIntent);
    installedApps := [];
    ghost var kept: seq<PackageInfo> := [];
    var i := 0;
    while i < |apps|
      invariant 0 <= i <= |apps|
      invariant kept == Filter(apps[..i], keep)
      invariant AreAppData(installedApps, pm, kept, includeAppIcons, sdkInt)
    {
      var pInfo := apps[i];
      assert apps[..i + 1] == apps[..i] + [pInfo];
      FilterSnoc(apps[..i], pInfo, keep);
      if !includeSystemApps && IsSystemApp(pInfo) {
      } else if onlyAppsWithLaunchIntent && GetLaunchIntentForPackage(pm, pInfo.packageName).None? {
      } else {
        assert pInfo in Filter(apps, keep);
        var m := GetAppData(pm, pInfo, includeAppIcons, sdkInt);
        AreAppDataSnoc(installedApps, pm, kept, m, pInfo, includeAppIcons, sdkInt);
        installedApps := installedApps + [m];
        kept := kept + [pInfo];
      }
      i := i + 1;
    }
    assert apps[..i] == apps;
  }

  /** `isAppInstalled`: false without a context or when the package is not found. */
  function IsAppInstalledCheck(ctx: Option<PackageManager>, packageName: string): (r: bool)
    ensures r <==> ctx.Some? && packageName in ctx.value.packages
  {
    match ctx
    case None => false
    case Some(pm) => GetPackageInfo(pm, packageName).Some?
  }

  /** `getApp`: null without a context or for an unknown package, else the package's record. */
  method GetAppRecord(ctx: Option<PackageManager>, sdkInt: int, packageName: string, includeAppIcon: bool)
    returns (app: Option<AppData>)
    requires ctx.Some? && packageName in ctx.value.packages ==> sdkInt >= VERSION_CODES_P
    ensures app.Some? <==> IsAppInstalledCheck(ctx, packageName)
    ensures app.Some? ==> IsAppData(app.value, ctx.value, ctx.value.packages[packageName], includeAppIcon, sdkInt)
  {
    if ctx.None? {
      return None;
    }
    var pm := ctx.value;
    match GetPackageInfo(pm, packageName) {
      case None =>
        app := None;
      case Some(pInfo) =>
        var m := GetAppData(pm, pInfo, includeAppIcon, sdkInt);
        app := Some(m);
    }
  }

  /** `openApp`: false without a context or a launch intent; true only after starting it. */
  method OpenAppActivity(ctx: Option<PackageManager>, packageName: string) returns (launched: bool, started: Option<Intent>)
    ensures launched <==> ctx.Some? && packageName in ctx.value.launchIntents
    ensures launched <==> started.Some?
    ensures launched ==> started.value == ctx.value.launchIntents[packageName]
  {
    if ctx.None? {
      return false, None;
    }
    var launchIntent := GetLaunchIntentForPackage(ctx.value, packageName);
    if launchIntent.None? {
      return false, None;
    }
    started := launchIntent;
    launched := true;
  }

  /** The command reaches `getAppData`: there is a context and a record to build. */
  predicate BuildsRecord(command: Command, ctx: Option<PackageManager>) {
    ctx.Some? &&
    match command
    case GetInstalledApps(includeSystemApps, _, onlyAppsWithLaunchIntent) =>
      Filter(ctx.value.installedPackages, KeepInstalled(ctx.value, includeSystemApps, onlyAppsWithLaunchIntent)) != []
    case GetApp(packageName, _) => packageName in ctx.value.packages
    case _ => false
  }

  /**
   * `onMethodCall` followed by the command it selects; as in Java, rejected
   * and unknown calls query nothing and only `openApp` starts an activity.
   */
  method OnMethodCall(call: MethodCall, ctx: Option<PackageManager>, sdkInt: int)
    returns (result: MethodResult, started: Option<Intent>)
    requires Readable(call)
    requires Dispatch(call).Execute? ==> !BuildsRecord(Dispatch(call).command, ctx) || sdkInt >= VERSION_CODES_P
    ensures Dispatch(call).Reject? ==> result == Error(ERROR_CODE, EMPTY_PACKAGE_NAME) && started == None
    ensures Dispatch(call).Unsupported? ==> result == NotImplemented && started == None
    ensures Dispatch(call).Execute? ==> result.Success?
    ensures started.Some? ==> ctx.Some? && Dispatch(call).Execute? && Dispatch(call).command.OpenApp?
                              && result == Success(Flag(true))
    ensures ctx.None? && Dispatch(call).Execute? && Dispatch(call).command.GetInstalledApps? ==>
              result == Success(AppList([]))
    ensures ctx.None? && Dispatch(call).Execute? && !Dispatch(call).command.GetInstalledApps? ==>
              result in {Success(MaybeApp(None)), Success(Flag(false))}
    ensures Dispatch(call).Execute? && Dispatch(call).command.IsAppInstalled? ==>
              result == Success(Flag(ctx.Some? && Dispatch(call).command.packageName in ctx.value.packages))
    ensures Dispatch(call).Execute? && Dispatch(call).command.GetApp? ==>
              result.payload.MaybeApp?
              && (result.payload.app.Some? <==> ctx.Some? && Dispatch(call).command.packageName in ctx.value.packages)
    ensures Dispatch(call).Execute? && Dispatch(call).command.OpenApp? ==>
              result == Success(Flag(ctx.Some? && Dispatch(call).command.packageName in ctx.value.launchIntents))
    ensures ctx.Some? && Dispatch(call).Execute? && Dispatch(call).command.OpenApp? && result == Success(Flag(true)) ==>
              Dispatch(call).command.packageName in ctx.value.launchIntents
              && started == Some(ctx.value.launchIntents[Dispatch(call).command.packageName])
    ensures ctx.Some? && Dispatch(call).Execute? && Dispatch(call).command.GetApp? && result.payload.app.Some? ==>
              var c := Dispatch(call).command;
              IsAppData(result.payload.app.value, ctx.value, ctx.value.packages[c.packageName], c.includeAppIcon, sdkInt)
    ensures ctx.Some? && Dispatch(call).Execute? && Dispatch(call).command.GetInstalledApps? ==>
              var c := Dispatch(call).command;
              result.payload.AppList?
              && AreAppData(result.payload.apps, ctx.value,
                            Filter(ctx.value.installedPackages,
                                   KeepInstalled(ctx.value, c.includeSystemApps, c.onlyAppsWithLaunchIntent)),
                            c.includeAppIcons, sdkInt)
  {
    started := None;
    match Dispatch(call) {
      case Reject(code, message) =>
        result := Error(code, message);
      case Unsupported =>
        result := NotImplemented;
      case Execute(GetInstalledApps(systemApps, includeAppIcons, onlyAppsWithLaunchIntent)) =>
        var apps := GetInstalledAppsList(ctx, sdkInt, systemApps, includeAppIcons, onlyAppsWithLaunchIntent);
        result := Success(AppList(apps));
      case Execute(GetApp(packageName, includeAppIcon)) =>
        var app := GetAppRecord(ctx, sdkInt, packageName, includeAppIcon);
        result := Success(MaybeApp(app));
      case Execute(GetAppByApkFiles(_, _)) =>
        result := NotImplemented;
      case Execute(IsAppInstalled(packageName)) =>
        result := Success(Flag(IsAppInstalledCheck(ctx, packageName)));
      case Execute(OpenApp(packageName)) =>
        var launched;
        launched, started := OpenAppActivity(ctx, packageName);
        result := Success(Flag(launched));
    }
  }
}
