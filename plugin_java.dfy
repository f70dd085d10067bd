/**
 * DeviceAppsPlugin.java: validates method-channel calls and answers them
 * from the package manager. The background executor and the main-thread
 * hand-off are not modelled: each command runs to its reply directly.
 */
module DeviceAppsPluginJava {
  import opened Wrappers
  import opened Android
  import opened PluginApi
  import opened Sequences

  const SYSTEM_APP_MASK: bv32 := FLAG_SYSTEM | FLAG_UPDATED_SYSTEM_APP

  /** `isSystemApp`: the flags carry FLAG_SYSTEM or FLAG_UPDATED_SYSTEM_APP. */
  function IsSystemApp(pInfo: PackageInfo): (r: bool)
    ensures r <==> (pInfo.applicationInfo.flags & FLAG_SYSTEM != 0
                    || pInfo.applicationInfo.flags & FLAG_UPDATED_SYSTEM_APP != 0)
  {
    (pInfo.applicationInfo.flags & SYSTEM_APP_MASK) != 0
  }

  // ---------------------------------------------------------------------
  // Argument reading and validation (`onMethodCall`)
  // ---------------------------------------------------------------------

  /** `(Boolean) call.argument(key)` is reached only when the key is present; it must then be a Boolean. */
  predicate BooleanArgReadable(call: MethodCall, key: string) {
    key in call.arguments ==> call.arguments[key].ABool?
  }

  /** `call.hasArgument(key) && (Boolean) call.argument(key)`. */
  function BooleanArg(call: MethodCall, key: string): (r: bool)
    requires BooleanArgReadable(call, key)
    ensures key !in call.arguments ==> !r
    ensures r <==> key in call.arguments && call.arguments[key] == ABool(true)
  {
    key in call.arguments && call.arguments[key].b
  }

  /** `String.join(", ", items)`, as `List.toString` writes the elements. */
  function JoinWithComma(items: seq<string>): string {
    if items == [] then ""
    else if |items| == 1 then items[0]
    else items[0] + ", " + JoinWithComma(items[1..])
  }

  /** `call.argument(key).toString()` for a non-null argument. */
  function ArgToString(a: Arg): (r: string)
    requires !a.ANull?
    ensures a.AString? ==> r == a.s
    ensures |r| == 0 <==> a == AString("")
  {
    match a
    case ABool(b) => if b then "true" else "false"
    case AString(s) => s
    case AStringList(items) => "[" + JoinWithComma(items) + "]"
  }

  /** `toString()` is called on `package_name` only when it is present; it must not be null. */
  predicate PackageNameReadable(call: MethodCall) {
    ARG_PACKAGE_NAME in call.arguments ==> !call.arguments[ARG_PACKAGE_NAME].ANull?
  }

  /** `!call.hasArgument("package_name") || TextUtils.isEmpty(call.argument("package_name").toString())`. */
  predicate PackageNameMissing(call: MethodCall)
    requires PackageNameReadable(call)
  {
    ARG_PACKAGE_NAME !in call.arguments || IsEmpty(ArgToString(call.arguments[ARG_PACKAGE_NAME]))
  }

  /**
   * The calls `onMethodCall` handles without a null dereference or a failed
   * cast: each argument it reads has the type it casts to.
   */
  predicate Readable(call: MethodCall) {
    if call.methodName == METHOD_GET_INSTALLED_APPS then
      && BooleanArgReadable(call, ARG_SYSTEM_APPS)
      && BooleanArgReadable(call, ARG_INCLUDE_APP_ICONS)
      && BooleanArgReadable(call, ARG_ONLY_APPS_WITH_LAUNCH_INTENT)
    else if call.methodName == METHOD_GET_APP then
      PackageNameReadable(call) && (!PackageNameMissing(call) ==> BooleanArgReadable(call, ARG_INCLUDE_APP_ICON))
    else if call.methodName == METHOD_GET_APP_BY_APK_FILES then
      ARG_PATHS in call.arguments ==>
        call.arguments[ARG_PATHS].AStringList? && BooleanArgReadable(call, ARG_INCLUDE_APP_ICON)
    else if call.methodName == METHOD_IS_APP_INSTALLED || call.methodName == METHOD_OPEN_APP then
      PackageNameReadable(call)
    else true
  }

  /**
   * The `onMethodCall` switch: five methods are known; those naming a
   * package reject a missing or empty name, `getAppByApkFiles` rejects a
   * missing path list, anything else is not implemented.
   */
  function Dispatch(call: MethodCall): (r: Decision)
    requires Readable(call)
    ensures r.Reject? ==> r.code == ERROR_CODE
    ensures r.Execute? ==> CommandMethod(r.command) == call.methodName
    ensures r.Unsupported? <==>
              call.methodName !in {METHOD_GET_INSTALLED_APPS, METHOD_GET_APP, METHOD_GET_APP_BY_APK_FILES,
                                   METHOD_IS_APP_INSTALLED, METHOD_OPEN_APP}
    ensures call.methodName in {METHOD_GET_APP, METHOD_IS_APP_INSTALLED, METHOD_OPEN_APP} ==>
              (r.Reject? <==> PackageNameMissing(call)) && (r.Reject? ==> r.message == EMPTY_PACKAGE_NAME)
    ensures call.methodName == METHOD_GET_APP_BY_APK_FILES ==>
              (r.Reject? <==> ARG_PATHS !in call.arguments) && (r.Reject? ==> r.message == EMPTY_ARGUMENT)
    ensures call.methodName == METHOD_GET_INSTALLED_APPS ==> !r.Reject?
    ensures r.Execute? && (r.command.GetApp? || r.command.IsAppInstalled? || r.command.OpenApp?) ==>
              r.command.packageName == ArgToString(call.arguments[ARG_PACKAGE_NAME])
              && !IsEmpty(r.command.packageName)
    ensures r.Execute? && r.command.GetAppByApkFiles? ==> r.command.paths == call.arguments[ARG_PATHS].items
    ensures r.Execute? && r.command.GetInstalledApps? ==>
              r.command == GetInstalledApps(BooleanArg(call, ARG_SYSTEM_APPS), BooleanArg(call, ARG_INCLUDE_APP_ICONS),
                                            BooleanArg(call, ARG_ONLY_APPS_WITH_LAUNCH_INTENT))
    ensures r.Execute? && (r.command.GetApp? || r.command.GetAppByApkFiles?) ==>
              r.command.includeAppIcon == BooleanArg(call, ARG_INCLUDE_APP_ICON)
  {
    if call.methodName == METHOD_GET_INSTALLED_APPS then
      var systemApps := BooleanArg(call, ARG_SYSTEM_APPS);
      var includeAppIcons := BooleanArg(call, ARG_INCLUDE_APP_ICONS);
      var onlyAppsWithLaunchIntent := BooleanArg(call, ARG_ONLY_APPS_WITH_LAUNCH_INTENT);
      Execute(GetInstalledApps(systemApps, includeAppIcons, onlyAppsWithLaunchIntent))
    else if call.methodName == METHOD_GET_APP then
      if PackageNameMissing(call) then Reject(ERROR_CODE, EMPTY_PACKAGE_NAME)
      else
        var packageName := ArgToString(call.arguments[ARG_PACKAGE_NAME]);
        Execute(GetApp(packageName, BooleanArg(call, ARG_INCLUDE_APP_ICON)))
    else if call.methodName == METHOD_GET_APP_BY_APK_FILES then
      if ARG_PATHS !in call.arguments then Reject(ERROR_CODE, EMPTY_ARGUMENT)
      else Execute(GetAppByApkFiles(call.arguments[ARG_PATHS].items, BooleanArg(call, ARG_INCLUDE_APP_ICON)))
    else if call.methodName == METHOD_IS_APP_INSTALLED then
      if PackageNameMissing(call) then Reject(ERROR_CODE, EMPTY_PACKAGE_NAME)
      else Execute(IsAppInstalled(ArgToString(call.arguments[ARG_PACKAGE_NAME])))
    else if call.methodName == METHOD_OPEN_APP then
      if PackageNameMissing(call) then Reject(ERROR_CODE, EMPTY_PACKAGE_NAME)
      else Execute(OpenApp(ArgToString(call.arguments[ARG_PACKAGE_NAME])))
    else Unsupported
  }

  /** Options that are not sent read as false. */
  lemma AbsentOptionsAreFalse(call: MethodCall)
    requires call.methodName == METHOD_GET_INSTALLED_APPS
    requires ARG_SYSTEM_APPS !in call.arguments && ARG_INCLUDE_APP_ICONS !in call.arguments
    requires ARG_ONLY_APPS_WITH_LAUNCH_INTENT !in call.arguments
    ensures Readable(call) && Dispatch(call) == Execute(GetInstalledApps(false, false, false))
  {
  }

  // ---------------------------------------------------------------------
  // App records (`getAppData`)
  // ---------------------------------------------------------------------

  /**
   * `m` is the record `getAppData(pm, pInfo, includeAppIcon)` builds when
   * the platform reports `sdkInt` as its SDK level.
   */
  predicate IsAppData(m: AppData, pInfo: PackageInfo, includeAppIcon: bool, sdkInt: int) {
    var ai := pInfo.applicationInfo;
    && m.Keys == RecordKeys(sdkInt >= VERSION_CODES_O, includeAppIcon)
    && m[APP_NAME] == VString(ai.loadedLabel)
    && m[APK_FILE_PATH] == VString(ai.sourceDir)
    && m[PACKAGE_NAME] == VString(pInfo.packageName)
    && m[VERSION_CODE] == VInt(pInfo.versionCode)
    && m[VERSION_NAME] == VString(pInfo.versionName)
    && m[DATA_DIR] == VString(ai.dataDir)
    && m[SYSTEM_APP] == VBool(IsSystemApp(pInfo))
    && m[INSTALL_TIME] == VInt(pInfo.firstInstallTime)
    && m[UPDATE_TIME] == VInt(pInfo.lastUpdateTime)
    && (sdkInt >= VERSION_CODES_O ==> m[CATEGORY] == VInt(ai.category))
    && (includeAppIcon ==> m[APP_ICON] == VString(ai.iconPng))
  }

  /** `getAppData`: fills a fresh map key by key. */
  method GetAppData(pInfo: PackageInfo, includeAppIcon: bool, sdkInt: int) returns (m: AppData)
    ensures IsAppData(m, pInfo, includeAppIcon, sdkInt)
  {
    var ai := pInfo.applicationInfo;
    m := map[];
    m := m[APP_NAME := VString(ai.loadedLabel)];
    m := m[APK_FILE_PATH := VString(ai.sourceDir)];
    m := m[PACKAGE_NAME := VString(pInfo.packageName)];
    m := m[VERSION_CODE := VInt(pInfo.versionCode)];
    m := m[VERSION_NAME := VString(pInfo.versionName)];
    m := m[DATA_DIR := VString(ai.dataDir)];
    m := m[SYSTEM_APP := VBool(IsSystemApp(pInfo))];
    m := m[INSTALL_TIME := VInt(pInfo.firstInstallTime)];
    m := m[UPDATE_TIME := VInt(pInfo.lastUpdateTime)];
    assert m.Keys == BaseKeys();
    if sdkInt >= VERSION_CODES_O {
      m := m[CATEGORY := VInt(ai.category)];
    }
    if includeAppIcon {
      m := m[APP_ICON := VString(ai.iconPng)];
    }
  }

  /** The record is determined by the package, the icon option and the SDK level. */
  lemma AppDataIsDetermined(m1: AppData, m2: AppData, pInfo: PackageInfo, includeAppIcon: bool, sdkInt: int)
    requires IsAppData(m1, pInfo, includeAppIcon, sdkInt) && IsAppData(m2, pInfo, includeAppIcon, sdkInt)
    ensures m1 == m2
  {
    forall k | k in m1.Keys ensures m1[k] == m2[k] {
    }
  }

  /** `ms[k]` is the record of `ps[k]` for every `k`. */
  predicate AreAppData(ms: seq<AppData>, ps: seq<PackageInfo>, includeAppIcon: bool, sdkInt: int) {
    |ms| == |ps| && forall k :: 0 <= k < |ms| ==> IsAppData(ms[k], ps[k], includeAppIcon, sdkInt)
  }

  lemma AreAppDataSnoc(ms: seq<AppData>, ps: seq<PackageInfo>, m: AppData, p: PackageInfo, includeAppIcon: bool, sdkInt: int)
    requires AreAppData(ms, ps, includeAppIcon, sdkInt) && IsAppData(m, p, includeAppIcon, sdkInt)
    ensures AreAppData(ms + [m], ps + [p], includeAppIcon, sdkInt)
  {
  }

  // ---------------------------------------------------------------------
  // Queries
  // ---------------------------------------------------------------------

  /** The `getInstalledApps` loop's test for keeping a package. */
  function KeepInstalled(pm: PackageManager, includeSystemApps: bool, onlyAppsWithLaunchIntent: bool): PackageInfo -> bool {
    p => (includeSystemApps || !IsSystemApp(p))
         && (!onlyAppsWithLaunchIntent || GetLaunchIntentForPackage(pm, p.packageName).Some?)
  }

  /**
   * `getInstalledApps`: one record per installed package the options keep,
   * in the package manager's order.
   */
  method GetInstalledAppsList(pm: PackageManager, sdkInt: int, includeSystemApps: bool, includeAppIcons: bool,
                              onlyAppsWithLaunchIntent: bool)
    returns (installedApps: seq<AppData>)
    ensures var kept := Filter(pm.installedPackages, KeepInstalled(pm, includeSystemApps, onlyAppsWithLaunchIntent));
            && |installedApps| == |kept|
            && forall i :: 0 <= i < |kept| ==> IsAppData(installedApps[i], kept[i], includeAppIcons, sdkInt)
  {
    var apps := pm.installedPackages;
    var keep := KeepInstalled(pm, includeSystemApps, onlyAppsWithLaunchIntent);
    installedApps := [];
    ghost var kept: seq<PackageInfo> := [];
    var i := 0;
    while i < |apps|
      invariant 0 <= i <= |apps|
      invariant kept == Filter(apps[..i], keep)
      invariant AreAppData(installedApps, kept, includeAppIcons, sdkInt)
    {
      var pInfo := apps[i];
      assert apps[..i + 1] == apps[..i] + [pInfo];
      FilterSnoc(apps[..i], pInfo, keep);
      if !includeSystemApps && IsSystemApp(pInfo) {
      } else if onlyAppsWithLaunchIntent && GetLaunchIntentForPackage(pm, pInfo.packageName).None? {
      } else {
        var m := GetAppData(pInfo, includeAppIcons, sdkInt);
        AreAppDataSnoc(installedApps, kept, m, pInfo, includeAppIcons, sdkInt);
        installedApps := installedApps + [m];
        kept := kept + [pInfo];
      }
      i := i + 1;
    }
    assert apps[..i] == apps;
  }

  /**
   * The selection `getInstalledApps` reports: an order-preserving
   * subsequence of the installed packages; a package is dropped exactly when
   * it is a system app and system apps are excluded, or it has no launch
   * intent and one is required.
   */
  lemma InstalledAppsSelection(pm: PackageManager, includeSystemApps: bool, onlyAppsWithLaunchIntent: bool)
    ensures var keep := KeepInstalled(pm, includeSystemApps, onlyAppsWithLaunchIntent);
            var installed := pm.installedPackages;
            && SubsequenceBy(Filter(installed, keep), installed, KeptPositions(installed, keep))
            && (forall j :: 0 <= j < |installed| ==>
                  (j in KeptPositions(installed, keep) <==>
                     (includeSystemApps || !IsSystemApp(installed[j]))
                     && (!onlyAppsWithLaunchIntent || installed[j].packageName in pm.launchIntents)))
            && (includeSystemApps && !onlyAppsWithLaunchIntent ==> Filter(installed, keep) == installed)
  {
    var keep := KeepInstalled(pm, includeSystemApps, onlyAppsWithLaunchIntent);
    FilterPreservesOrder(pm.installedPackages, keep);
    KeptPositionsExact(pm.installedPackages, keep);
    if includeSystemApps && !onlyAppsWithLaunchIntent {
      FilterKeepsAll(pm.installedPackages, keep);
    }
  }

  /** `isAppInstalled`: `getPackageInfo` finds the name. */
  function IsAppInstalledCheck(pm: PackageManager, packageName: string): (r: bool)
    ensures r <==> packageName in pm.packages
  {
    GetPackageInfo(pm, packageName).Some?
  }

  /** `getApp`: the package's record, or null exactly when the package is not installed. */
  method GetAppRecord(pm: PackageManager, sdkInt: int, packageName: string, includeAppIcon: bool)
    returns (app: Option<AppData>)
    ensures app.Some? <==> IsAppInstalledCheck(pm, packageName)
    ensures app.Some? ==> IsAppData(app.value, pm.packages[packageName], includeAppIcon, sdkInt)
  {
    match GetPackageInfo(pm, packageName) {
      case None =>
        app := None;
      case Some(pInfo) =>
        var m := GetAppData(pInfo, includeAppIcon, sdkInt);
        app := Some(m);
    }
  }

  /** `openApp`: starts the launch intent if there is one and says whether it did. */
  method OpenAppActivity(pm: PackageManager, packageName: string) returns (launched: bool, started: Option<Intent>)
    ensures launched <==> packageName in pm.launchIntents
    ensures launched <==> started.Some?
    ensures launched ==> started.value == pm.launchIntents[packageName]
  {
    var launchIntent := GetLaunchIntentForPackage(pm, packageName);
    if launchIntent.Some? {
      started := launchIntent;
      return true, started;
    }
    return false, None;
  }

  /** `getPackageArchiveInfo(path, 0) != null`. */
  function ParsesAsArchive(pm: PackageManager): string -> bool {
    path => GetPackageArchiveInfo(pm, path).Some?
  }

  /** The archive's info after `sourceDir` and `publicSourceDir` are set to its path. */
  function WithArchivePath(pInfo: PackageInfo, path: string): (r: PackageInfo)
    ensures r.applicationInfo.sourceDir == path && r.applicationInfo.publicSourceDir == path
    ensures r.(applicationInfo := pInfo.applicationInfo) == pInfo
    ensures r.applicationInfo.(sourceDir := pInfo.applicationInfo.sourceDir,
                               publicSourceDir := pInfo.applicationInfo.publicSourceDir) == pInfo.applicationInfo
  {
    pInfo.(applicationInfo := pInfo.applicationInfo.(sourceDir := path, publicSourceDir := path))
  }

  /**
   * `getAppByApkFile`: one record per path that parses as an archive, in
   * path order, each recording that path as its `apk_file_path`.
   */
  method GetAppByApkFile(pm: PackageManager, sdkInt: int, paths: seq<string>, includeAppIcon: bool)
    returns (apkFiles: seq<AppData>)
    ensures var parsed := Filter(paths, ParsesAsArchive(pm));
            && |apkFiles| == |parsed|
            && forall i :: 0 <= i < |parsed| ==>
                 && parsed[i] in pm.archives
                 && IsAppData(apkFiles[i], WithArchivePath(pm.archives[parsed[i]], parsed[i]), includeAppIcon, sdkInt)
                 && apkFiles[i][APK_FILE_PATH] == VString(parsed[i])
  {
    var keep := ParsesAsArchive(pm);
    apkFiles := [];
    var i := 0;
    while i < |paths|
      invariant 0 <= i <= |paths|
      invariant |apkFiles| == |Filter(paths[..i], keep)|
      invariant forall k :: 0 <= k < |apkFiles| ==>
                  var path := Filter(paths[..i], keep)[k];
                  path in pm.archives && IsAppData(apkFiles[k], WithArchivePath(pm.archives[path], path), includeAppIcon, sdkInt)
    {
      var file := paths[i];
      assert paths[..i + 1][..i] == paths[..i];
      var pi := GetPackageArchiveInfo(pm, file);
      if pi.Some? {
        var patched := WithArchivePath(pi.value, file);
        var m := GetAppData(patched, includeAppIcon, sdkInt);
        apkFiles := apkFiles + [m];
      }
      i := i + 1;
    }
    assert paths[..i] == paths;
  }

  /** Path `j` yields a record exactly when it parses, and records follow path order. */
  lemma ApkFilesSelection(pm: PackageManager, paths: seq<string>)
    ensures var keep := ParsesAsArchive(pm);
            && SubsequenceBy(Filter(paths, keep), paths, KeptPositions(paths, keep))
            && forall j :: 0 <= j < |paths| ==> (j in KeptPositions(paths, keep) <==> paths[j] in pm.archives)
  {
    FilterPreservesOrder(paths, ParsesAsArchive(pm));
    KeptPositionsExact(paths, ParsesAsArchive(pm));
  }

  // ---------------------------------------------------------------------
  // The whole handler
  // ---------------------------------------------------------------------

  /**
   * `onMethodCall` followed by the command it selects: rejected and unknown
   * calls reply at once and query nothing; only a successful `openApp`
   * starts an activity.
   */
  method OnMethodCall(call: MethodCall, pm: PackageManager, sdkInt: int)
    returns (result: MethodResult, started: Option<Intent>)
    requires Readable(call)
    ensures Dispatch(call).Reject? ==> result == Error(Dispatch(call).code, Dispatch(call).message) && started == None
    ensures Dispatch(call).Unsupported? ==> result == NotImplemented && started == None
    ensures Dispatch(call).Execute? ==> result.Success?
    ensures started.Some? ==> Dispatch(call).Execute? && Dispatch(call).command.OpenApp?
                              && result == Success(Flag(true))
    ensures Dispatch(call).Execute? && Dispatch(call).command.OpenApp? ==>
              result == Success(Flag(Dispatch(call).command.packageName in pm.launchIntents))
    ensures Dispatch(call).Execute? && Dispatch(call).command.OpenApp? && result == Success(Flag(true)) ==>
              Dispatch(call).command.packageName in pm.launchIntents
              && started == Some(pm.launchIntents[Dispatch(call).command.packageName])
    ensures Dispatch(call).Execute? && Dispatch(call).command.IsAppInstalled? ==>
              result == Success(Flag(Dispatch(call).command.packageName in pm.packages))
    ensures Dispatch(call).Execute? && Dispatch(call).command.GetApp? ==>
              result.payload.MaybeApp? && (result.payload.app.Some? <==> Dispatch(call).command.packageName in pm.packages)
    ensures Dispatch(call).Execute? && Dispatch(call).command.GetApp? && result.payload.app.Some? ==>
              var c := Dispatch(call).command;
              IsAppData(result.payload.app.value, pm.packages[c.packageName], c.includeAppIcon, sdkInt)
    ensures Dispatch(call).Execute? && Dispatch(call).command.GetInstalledApps? ==>
              var c := Dispatch(call).command;
              result.payload.AppList?
              && AreAppData(result.payload.apps,
                            Filter(pm.installedPackages, KeepInstalled(pm, c.includeSystemApps, c.onlyAppsWithLaunchIntent)),
                            c.includeAppIcons, sdkInt)
    ensures Dispatch(call).Execute? && Dispatch(call).command.GetAppByApkFiles? ==>
              var c := Dispatch(call).command;
              var parsed := Filter(c.paths, ParsesAsArchive(pm));
              && result.payload.AppList?
              && |result.payload.apps| == |parsed|
              && forall i :: 0 <= i < |parsed| ==>
                   && parsed[i] in pm.archives
                   && IsAppData(result.payload.apps[i], WithArchivePath(pm.archives[parsed[i]], parsed[i]), c.includeAppIcon, sdkInt)
  {
    started := None;
    match Dispatch(call) {
      case Reject(code, message) =>
        result := Error(code, message);
      case Unsupported =>
        result := NotImplemented;
      case Execute(GetInstalledApps(systemApps, includeAppIcons, onlyAppsWithLaunchIntent)) =>
        var apps := GetInstalledAppsList(pm, sdkInt, systemApps, includeAppIcons, onlyAppsWithLaunchIntent);
        result := Success(AppList(apps));
      case Execute(GetApp(packageName, includeAppIcon)) =>
        var app := GetAppRecord(pm, sdkInt, packageName, includeAppIcon);
        result := Success(MaybeApp(app));
      case Execute(GetAppByApkFiles(paths, includeAppIcon)) =>
        var apps := GetAppByApkFile(pm, sdkInt, paths, includeAppIcon);
        result := Success(AppList(apps));
      case Execute(IsAppInstalled(packageName)) =>
        result := Success(Flag(IsAppInstalledCheck(pm, packageName)));
      case Execute(OpenApp(packageName)) =>
        var launched;
        launched, started := OpenAppActivity(pm, packageName);
        result := Success(Flag(launched));
    }
  }
}
