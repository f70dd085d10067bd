/**
 * The slice of Android's package manager the plugin queries, as values.
 * Each query of `PackageManager` is a field; a name missing from a map is
 * the query's `null` or `NameNotFoundException`.
 */
module Android {
  import opened Wrappers

  /** ApplicationInfo.FLAG_SYSTEM (bit 0). */
  const FLAG_SYSTEM: bv32 := 0x1
  /** ApplicationInfo.FLAG_UPDATED_SYSTEM_APP (bit 7). */
  const FLAG_UPDATED_SYSTEM_APP: bv32 := 0x80
  /** Build.VERSION_CODES.O, the first release with ApplicationInfo.category. */
  const VERSION_CODES_O: int := 26
  /** Build.VERSION_CODES.P, the first release with PackageInfo.getLongVersionCode(). */
  const VERSION_CODES_P: int := 28

  /**
   * The ApplicationInfo fields the plugin reads. `loadedLabel` is what
   * `loadLabel(pm).toString()` returns and `iconPng` is the Base64 PNG text
   * of `loadIcon(pm)`; both are computed by the platform.
   */
  datatype ApplicationInfo = ApplicationInfo(
    flags: bv32,
    sourceDir: string,
    publicSourceDir: string,
    dataDir: string,
    category: int,
    loadedLabel: string,
    iconPng: string)

  datatype PackageInfo = PackageInfo(
    packageName: string,
    versionCode: int,
    longVersionCode: int,
    versionName: string,
    firstInstallTime: int,
    lastUpdateTime: int,
    applicationInfo: ApplicationInfo)

  /** A launch intent, of which only the package it opens is modelled. */
  datatype Intent = LaunchIntent(packageName: string)

  /**
   * - `installedPackages`: `getInstalledPackages(0)`, in the platform's order;
   * - `packages`: `getPackageInfo(name, 0)`;
   * - `launchIntents`: `getLaunchIntentForPackage(name)`;
   * - `archives`: `getPackageArchiveInfo(path, 0)` (a path that does not parse is absent);
   * - `applicationIcons`: `getApplicationIcon(name)`, already Base64 PNG text.
   */
  datatype PackageManager = PackageManager(
    installedPackages: seq<PackageInfo>,
    packages: map<string, PackageInfo>,
    launchIntents: map<string, Intent>,
    archives: map<string, PackageInfo>,
    applicationIcons: map<string, string>)

  /** `getPackageInfo(name, 0)`; None stands for NameNotFoundException. */
  function GetPackageInfo(pm: PackageManager, name: string): Option<PackageInfo> {
    if name in pm.packages then Some(pm.packages[name]) else None
  }

  /** `getLaunchIntentForPackage(name)`; None stands for null. */
  function GetLaunchIntentForPackage(pm: PackageManager, name: string): Option<Intent> {
    if name in pm.launchIntents then Some(pm.launchIntents[name]) else None
  }

  /** `getPackageArchiveInfo(path, 0)`; None stands for null. */
  function GetPackageArchiveInfo(pm: PackageManager, path: string): Option<PackageInfo> {
    if path in pm.archives then Some(pm.archives[path]) else None
  }
}
