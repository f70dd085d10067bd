/**
 * What crosses the "g123k/device_apps" method channel: the incoming call,
 * the decision the handler takes on it, the reply, and the keys of an app
 * record (AppDataConstants).
 */
module PluginApi {
  import opened Wrappers
  import Android

  /** An argument value as the channel decodes it. */
  datatype Arg = ABool(b: bool) | AString(s: string) | AStringList(items: seq<string>) | ANull

  datatype MethodCall = MethodCall(methodName: string, arguments: map<string, Arg>)

  const METHOD_GET_INSTALLED_APPS: string := "getInstalledApps"
  const METHOD_GET_APP: string := "getApp"
  const METHOD_GET_APP_BY_APK_FILES: string := "getAppByApkFiles"
  const METHOD_IS_APP_INSTALLED: string := "isAppInstalled"
  const METHOD_OPEN_APP: string := "openApp"

  /** The operation a call was validated into. */
  datatype Command =
    | GetInstalledApps(includeSystemApps: bool, includeAppIcons: bool, onlyAppsWithLaunchIntent: bool)
    | GetApp(packageName: string, includeAppIcon: bool)
    | GetAppByApkFiles(paths: seq<string>, includeAppIcon: bool)
    | IsAppInstalled(packageName: string)
    | OpenApp(packageName: string)

  /** The channel method a command answers. */
  function CommandMethod(c: Command): string {
    match c
    case GetInstalledApps(_, _, _) => METHOD_GET_INSTALLED_APPS
    case GetApp(_, _) => METHOD_GET_APP
    case GetAppByApkFiles(_, _) => METHOD_GET_APP_BY_APK_FILES
    case IsAppInstalled(_) => METHOD_IS_APP_INSTALLED
    case OpenApp(_) => METHOD_OPEN_APP
  }

  /** What `onMethodCall` decides before touching the package manager. */
  datatype Decision = Execute(command: Command) | Reject(code: string, message: string) | Unsupported

  /** A value of an app record. */
  datatype Value = VString(s: string) | VInt(i: int) | VBool(b: bool)

  /** The keys of an app record (AppDataConstants); `Name` is the string sent over the channel. */
  datatype RecordKey =
    | AppName | ApkFilePath | PackageName | VersionCode | VersionName | DataDir
    | SystemApp | InstallTime | UpdateTime | IsEnabled | Category | AppIcon
  {
    function Name(): string {
      match this
      case AppName => "app_name"
      case ApkFilePath => "apk_file_path"
      case PackageName => "package_name"
      case VersionCode => "version_code"
      case VersionName => "version_name"
      case DataDir => "data_dir"
      case SystemApp => "system_app"
      case InstallTime => "install_time"
      case UpdateTime => "update_time"
      case IsEnabled => "is_enabled"
      case Category => "category"
      case AppIcon => "app_icon"
    }
  }

  /** A record as `getAppData` builds it; the channel sees each key by its `Name`. */
  type AppData = map<RecordKey, Value>

  /** What the handler passes to `result.success`. */
  datatype Payload = AppList(apps: seq<AppData>) | MaybeApp(app: Option<AppData>) | Flag(b: bool)

  /** The channel reply: `success`, `error` or `notImplemented`. */
  datatype MethodResult = Success(payload: Payload) | Error(code: string, message: string) | NotImplemented

  const ERROR_CODE: string := "ERROR"
  const EMPTY_PACKAGE_NAME: string := "Empty or null package name"
  const EMPTY_ARGUMENT: string := "Empty or invalid argument"

  const ARG_SYSTEM_APPS: string := "system_apps"
  const ARG_INCLUDE_APP_ICONS: string := "include_app_icons"
  const ARG_ONLY_APPS_WITH_LAUNCH_INTENT: string := "only_apps_with_launch_intent"
  const ARG_PACKAGE_NAME: string := "package_name"
  const ARG_INCLUDE_APP_ICON: string := "include_app_icon"
  const ARG_PATHS: string := "paths"

  const APP_NAME: RecordKey := AppName
  const APK_FILE_PATH: RecordKey := ApkFilePath
  const PACKAGE_NAME: RecordKey := PackageName
  const VERSION_CODE: RecordKey := VersionCode
  const VERSION_NAME: RecordKey := VersionName
  const DATA_DIR: RecordKey := DataDir
  const SYSTEM_APP: RecordKey := SystemApp
  const INSTALL_TIME: RecordKey := InstallTime
  const UPDATE_TIME: RecordKey := UpdateTime
  const IS_ENABLED: RecordKey := IsEnabled
  const CATEGORY: RecordKey := Category
  const APP_ICON: RecordKey := AppIcon

  /** The nine keys every app record has. */
  function BaseKeys(): set<RecordKey> {
    {APP_NAME, APK_FILE_PATH, PACKAGE_NAME, VERSION_CODE, VERSION_NAME, DATA_DIR, SYSTEM_APP, INSTALL_TIME, UPDATE_TIME}
  }

  /** The keys of a record, given whether it has a category and an icon. */
  function RecordKeys(hasCategory: bool, hasIcon: bool): set<RecordKey> {
    BaseKeys() + (if hasCategory then {CATEGORY} else {}) + (if hasIcon then {APP_ICON} else {})
  }

  /**
   * A record always has the nine base keys, `category` and `app_icon` exactly
   * when asked for, and never `is_enabled`.
   */
  lemma RecordKeysSpec(hasCategory: bool, hasIcon: bool)
    ensures BaseKeys() <= RecordKeys(hasCategory, hasIcon)
    ensures CATEGORY in RecordKeys(hasCategory, hasIcon) <==> hasCategory
    ensures APP_ICON in RecordKeys(hasCategory, hasIcon) <==> hasIcon
    ensures IS_ENABLED !in RecordKeys(hasCategory, hasIcon)
  {
  }

  /** Distinct keys go over the channel under distinct names, so no `put` overwrites another. */
  lemma KeyNamesDistinct(a: RecordKey, b: RecordKey)
    requires a != b
    ensures a.Name() != b.Name()
  {
  }

  /** `TextUtils.isEmpty` on a string that is not null. */
  predicate IsEmpty(s: string) {
    |s| == 0
  }
}
