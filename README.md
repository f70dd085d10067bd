# device_apps (Android side): a Dafny model

The Flutter plugin `device_apps` answers method-channel calls about the
apps on an Android device and streams package-change events. This project
models its sequential core and proves what that core promises:

- **DeviceAppsChangedListener** (`listener.dfy`, module `AppsChangedListener`):
  the listener class with its two fields (the OS broadcast receiver and the
  event sink) and a ghost log of every call made to the OS and to the
  plugin's callback (`osCalls`). The OS's live registrations are computed
  from that log. `register` and `unregister` are methods on the class;
  the `onReceive` switch is the pure function `Classify`, which maps a
  package broadcast to at most one of installed / updated / uninstalled /
  changed.
- **DeviceAppsPlugin.java** (`plugin_java.dfy`, module `DeviceAppsPluginJava`):
  argument validation and dispatch (`Dispatch`), the `isSystemApp` bitmask
  test on `bv32` flags, the record built by `getAppData` (`IsAppData`), the
  two list-building loops (`getInstalledApps`, `getAppByApkFile`), and the
  `getApp`, `isAppInstalled` and `openApp` outcomes. `OnMethodCall` ties
  them together.
- **DeviceAppsPlugin.kt** (`plugin_kotlin.dfy`, module `DeviceAppsPluginKt`):
  the same operations with Kotlin's differences. A null context gives
  empty or false results. Null boolean options read as false. A failed icon
  lookup leaves `app_icon` out. The version code is `longVersionCode`.
  `getAppByApkFiles` is not implemented. Lemmas relate it to the Java model.

Supporting modules: `Wrappers` (Option), `Sequences` (order-preserving
filter with its order and exactness lemmas), `JavaString` (`String.replace`
with an empty replacement, and `equalsIgnoreCase`), `Android` (the package
manager as a value: a name missing from a map stands for `null` or
`NameNotFoundException`) and `PluginApi` (channel arguments, decisions,
replies, and the record keys of `AppDataConstants` as an enumeration that carries each key's channel name).

Two facts about the listener shape the model:
- It holds one event sink at a time. `register` ends the previous sink's
  stream and replaces it, and `unregister` tears everything down.
- It does not itself derive enabled/disabled events. A single-component
  CHANGED broadcast is forwarded as `onPackageChanged` to a callback whose
  implementation is not part of this model.

## Model

| member | source | states |
|---|---|---|
| `AppsChangedListener.Classify` | android/src/main/java/fr/g123k/deviceapps/listener/DeviceAppsChangedListener.java:50-74 | At most one callback, carrying the data string with every "package:" cut out. ADDED gives installed iff not replacing. REPLACED always gives updated. REMOVED gives uninstalled iff not replacing. CHANGED gives changed iff exactly one component equals the name ignoring case. Any other action gives nothing. Each callback kind comes from exactly one action, which is in the registered filter. |
| `AppsChangedListener.ClassifyAll` | android/src/main/java/fr/g123k/deviceapps/listener/DeviceAppsChangedListener.java:49-75 | A run of broadcasts yields no more callbacks than broadcasts. Each callback is the classification of one of them. |
| `AppsChangedListener.UpgradeIsOneUpdate` | android/src/main/java/fr/g123k/deviceapps/listener/DeviceAppsChangedListener.java:55-73 | An in-place upgrade is REMOVED(replacing), ADDED(replacing), REPLACED. It is reported as exactly one update and no install or uninstall. |
| `AppsChangedListener.ClassifyAllSnoc` | android/src/main/java/fr/g123k/deviceapps/listener/DeviceAppsChangedListener.java:49-75 | Callbacks come out in arrival order: one more broadcast appends exactly its own callback, if any. |
| `AppsChangedListener.ClassifyAllPrefix` | android/src/main/java/fr/g123k/deviceapps/listener/DeviceAppsChangedListener.java:49-75 | The callbacks of the first i + 1 broadcasts are those of the first i followed by broadcast i's. |
| `AppsChangedListener.Deliveries` | android/src/main/java/fr/g123k/deviceapps/listener/DeviceAppsChangedListener.java:79-93 | Delivering a list of events makes one callback call per event, in the same order, each with the given sink. |
| `AppsChangedListener.PackageNameOfSchemeData` | android/src/main/java/fr/g123k/deviceapps/listener/DeviceAppsChangedListener.java:50 | `package:<name>` yields `<name>` when the name itself does not contain "package:". |
| `AppsChangedListener.PackageNameOfCutsInnerOccurrences` | android/src/main/java/fr/g123k/deviceapps/listener/DeviceAppsChangedListener.java:50 | `replace` removes every occurrence, not just a prefix. "package:" + c + "package:" + name yields c + name, for any character c other than 'p' and any name free of the prefix. |
| `AppsChangedListener.PackageNameOfIsSinglePass` | android/src/main/java/fr/g123k/deviceapps/listener/DeviceAppsChangedListener.java:50 | Text that closes up around a cut is not scanned again. "pa" + "package:" + rest yields "pa" + rest. "papackage:ckage:" + name yields "package:" + name, so the result can still contain the prefix. |
| `AppsChangedListener.DeviceAppsChangedListener.constructor` | android/src/main/java/fr/g123k/deviceapps/listener/DeviceAppsChangedListener.java:22-25 | A new listener holds no sink and no receiver, and has made no OS call. |
| `AppsChangedListener.DeviceAppsChangedListener.Unregister` | android/src/main/java/fr/g123k/deviceapps/listener/DeviceAppsChangedListener.java:95-105 | Unregisters the held receiver, then ends the held sink's stream, each only if held. Afterwards both fields are null and no registration is live. |
| `AppsChangedListener.DeviceAppsChangedListener.UnregisterTwice` | android/src/main/java/fr/g123k/deviceapps/listener/DeviceAppsChangedListener.java:95-105 | `unregister` is idempotent: a second call makes no OS unregistration and no `endOfStream`. |
| `AppsChangedListener.DeviceAppsChangedListener.Register` | android/src/main/java/fr/g123k/deviceapps/listener/DeviceAppsChangedListener.java:27-44 | First the `unregister` calls for the old state (old receiver released, old sink ended exactly once). Then one registration of a fresh receiver with the four package actions and scheme "package". Afterwards it holds the new sink, and exactly that one receiver is live. |
| `AppsChangedListener.DeviceAppsChangedListener.OnPackageInstalled` | android/src/main/java/fr/g123k/deviceapps/listener/DeviceAppsChangedListener.java:79-81 | Forwards an installed callback with the current sink, and nothing else. |
| `AppsChangedListener.DeviceAppsChangedListener.OnPackageUpdated` | android/src/main/java/fr/g123k/deviceapps/listener/DeviceAppsChangedListener.java:83-85 | Forwards an updated callback with the current sink, and nothing else. |
| `AppsChangedListener.DeviceAppsChangedListener.OnPackageUninstalled` | android/src/main/java/fr/g123k/deviceapps/listener/DeviceAppsChangedListener.java:87-89 | Forwards an uninstalled callback with the current sink, and nothing else. |
| `AppsChangedListener.DeviceAppsChangedListener.OnPackageChanged` | android/src/main/java/fr/g123k/deviceapps/listener/DeviceAppsChangedListener.java:91-93 | Forwards a changed callback with the current sink, and nothing else. |
| `AppsChangedListener.DeviceAppsChangedListener.OnReceive` | android/src/main/java/fr/g123k/deviceapps/listener/DeviceAppsChangedListener.java:49-75 | A broadcast appends exactly the classified callback, if any, with the current sink. Registrations are left as they were. |
| `AppsChangedListener.DeviceAppsChangedListener.OnReceiveAll` | android/src/main/java/fr/g123k/deviceapps/listener/DeviceAppsChangedListener.java:49-93 | A run of broadcasts delivers exactly `ClassifyAll` of them, in arrival order, with the current sink. Registrations are left as they were. |
| `AppsChangedListener.DeviceAppsChangedListener.OnUpgrade` | android/src/main/java/fr/g123k/deviceapps/listener/DeviceAppsChangedListener.java:55-73 | An in-place upgrade (REMOVED and ADDED with replacing, then REPLACED) received by the listener reaches the callback as exactly one update. |
| `JavaString.RemoveAll` | android/src/main/java/fr/g123k/deviceapps/listener/DeviceAppsChangedListener.java:50 | `replace(target, "")` never lengthens the string. |
| `JavaString.RemoveAllWithoutTarget` | android/src/main/java/fr/g123k/deviceapps/listener/DeviceAppsChangedListener.java:50 | A string that does not contain the target is returned unchanged. |
| `JavaString.RemoveAllLeading` | android/src/main/java/fr/g123k/deviceapps/listener/DeviceAppsChangedListener.java:50 | A leading occurrence is cut, and the rest is treated as if on its own. |
| `JavaString.StripsSinglePrefix` | android/src/main/java/fr/g123k/deviceapps/listener/DeviceAppsChangedListener.java:50 | The target once in front of a remainder free of it yields the remainder. |
| `JavaString.RemoveAllSkip` | android/src/main/java/fr/g123k/deviceapps/listener/DeviceAppsChangedListener.java:50 | Where the target does not start, the first character is kept and the scan moves on by one. |
| `JavaString.NotContainsAfterHead` | android/src/main/java/fr/g123k/deviceapps/listener/DeviceAppsChangedListener.java:50 | A head without the target's first character creates no occurrence in front of a remainder free of the target. |
| `JavaString.RemoveAllFirstOccurrence` | android/src/main/java/fr/g123k/deviceapps/listener/DeviceAppsChangedListener.java:50 | Text before the first occurrence is kept, that occurrence is cut, and a remainder free of the target follows unchanged. |
| `JavaString.CharEqualsIgnoreCaseIsLowerEquality` | android/src/main/java/fr/g123k/deviceapps/listener/DeviceAppsChangedListener.java:65 | The modelled per-character case-insensitive test (the three steps of `regionMatches`, with ASCII case folding) is equality of lower-case forms. |
| `JavaString.EqualsIgnoreCaseIsLoweredEquality` | android/src/main/java/fr/g123k/deviceapps/listener/DeviceAppsChangedListener.java:65 | The modelled `equalsIgnoreCase` holds iff the lower-cased strings are equal, so it is an equivalence. |
| `Sequences.Filter` | android/src/main/java/fr/g123k/deviceapps/DeviceAppsPlugin.java:178-189 | The skip-or-add loop keeps no more elements than it reads. Every kept element passes the test and comes from the input. Every input element that passes is kept. |
| `Sequences.FilterSnoc` | android/src/main/java/fr/g123k/deviceapps/DeviceAppsPlugin.java:178-189 | One more loop step appends the element exactly when it passes the test. |
| `Sequences.KeptPositionsExact` | android/src/main/java/fr/g123k/deviceapps/DeviceAppsPlugin.java:178-189 | A position is kept exactly when its element passes the test. |
| `Sequences.FilterPreservesOrder` | android/src/main/java/fr/g123k/deviceapps/DeviceAppsPlugin.java:178-189 | The kept list is the input at strictly increasing kept positions. |
| `Sequences.FilterKeepsAll` | android/src/main/java/fr/g123k/deviceapps/DeviceAppsPlugin.java:178-189 | When every element passes, the output is the input. |
| `Sequences.FilterAgrees` | android/src/main/java/fr/g123k/deviceapps/DeviceAppsPlugin.kt:88-97 | Two tests that agree on every element select the same list. |
| `PluginApi.RecordKeysSpec` | android/src/main/java/fr/g123k/deviceapps/DeviceAppsPlugin.java:247-270 | A record always has the nine base keys. It has `category` exactly when asked, `app_icon` exactly when asked, and never `is_enabled`. |
| `PluginApi.KeyNamesDistinct` | android/src/main/java/fr/g123k/deviceapps/utils/AppDataConstants.java:5-16 | The twelve record keys have pairwise distinct channel names, so a record keyed by the enumeration loses nothing against the string-keyed map. |
| `DeviceAppsPluginJava.IsSystemApp` | android/src/main/java/fr/g123k/deviceapps/DeviceAppsPlugin.java:204-206 | True iff the flags carry FLAG_SYSTEM or FLAG_UPDATED_SYSTEM_APP (the mask of line 48). |
| `DeviceAppsPluginJava.BooleanArg` | android/src/main/java/fr/g123k/deviceapps/DeviceAppsPlugin.java:70-72 | An absent option is false. A present one is its Boolean value. |
| `DeviceAppsPluginJava.ArgToString` | android/src/main/java/fr/g123k/deviceapps/DeviceAppsPlugin.java:86 | `toString()` of an argument is empty only for the empty string. A string argument is its own text. |
| `DeviceAppsPluginJava.Dispatch` | android/src/main/java/fr/g123k/deviceapps/DeviceAppsPlugin.java:67-137 | `getApp`, `isAppInstalled` and `openApp` give ("ERROR", "Empty or null package name") iff the name is missing or empty, and otherwise run with that name. `getAppByApkFiles` gives ("ERROR", "Empty or invalid argument") iff `paths` is missing, and otherwise runs with that list. `getInstalledApps` is never rejected. Each Boolean option of the command is the call's option, and an absent option is false. Any other method is not implemented. |
| `DeviceAppsPluginJava.AbsentOptionsAreFalse` | android/src/main/java/fr/g123k/deviceapps/DeviceAppsPlugin.java:70-72 | `getInstalledApps` without options runs with all three flags false. |
| `DeviceAppsPluginJava.GetAppData` | android/src/main/java/fr/g123k/deviceapps/DeviceAppsPlugin.java:247-270 | The record has exactly the base keys, plus `category` iff SDK >= O, plus `app_icon` iff asked. `system_app` is `isSystemApp`, and each other value is the matching package field. |
| `DeviceAppsPluginJava.AppDataIsDetermined` | android/src/main/java/fr/g123k/deviceapps/DeviceAppsPlugin.java:247-270 | The record is determined by the package, the icon option and the SDK level. |
| `DeviceAppsPluginJava.GetInstalledAppsList` | android/src/main/java/fr/g123k/deviceapps/DeviceAppsPlugin.java:173-192 | One record per kept installed package, in package-manager order. |
| `DeviceAppsPluginJava.InstalledAppsSelection` | android/src/main/java/fr/g123k/deviceapps/DeviceAppsPlugin.java:178-189 | The kept packages are an order-preserving subsequence. A package is dropped iff it is a system app while system apps are excluded, or it lacks a launch intent while one is required. With system apps included and no launch requirement, nothing is dropped. |
| `DeviceAppsPluginJava.IsAppInstalledCheck` | android/src/main/java/fr/g123k/deviceapps/DeviceAppsPlugin.java:208-215 | True iff `getPackageInfo` finds the package; an unknown package gives false. |
| `DeviceAppsPluginJava.GetAppRecord` | android/src/main/java/fr/g123k/deviceapps/DeviceAppsPlugin.java:217-224 | Null iff the package is not installed; otherwise the package's record. |
| `DeviceAppsPluginJava.OpenAppActivity` | android/src/main/java/fr/g123k/deviceapps/DeviceAppsPlugin.java:194-202 | Starts the launch intent and returns true iff there is one. Otherwise it returns false and starts nothing. |
| `DeviceAppsPluginJava.WithArchivePath` | android/src/main/java/fr/g123k/deviceapps/DeviceAppsPlugin.java:237-238 | `sourceDir` and `publicSourceDir` become the path. Every other field of the package and of its application info is unchanged. |
| `DeviceAppsPluginJava.GetAppByApkFile` | android/src/main/java/fr/g123k/deviceapps/DeviceAppsPlugin.java:229-245 | One record per path that parses as an archive, in path order. Each record's `apk_file_path` is its own input path. |
| `DeviceAppsPluginJava.ApkFilesSelection` | android/src/main/java/fr/g123k/deviceapps/DeviceAppsPlugin.java:233-242 | A path yields a record iff it parses. Records follow path order. |
| `DeviceAppsPluginJava.OnMethodCall` | android/src/main/java/fr/g123k/deviceapps/DeviceAppsPlugin.java:67-137 | Rejected calls reply with the error and unknown ones with notImplemented; neither starts anything. Valid calls succeed. `isAppInstalled` answers membership. `getApp` is null iff the package is unknown, and otherwise is that package's record. `openApp` answers the Boolean: true if there is a launch intent, false otherwise. A true answer means exactly that package's launch intent was started, and nothing else starts an activity. `getInstalledApps` replies with the records of the kept packages, in order. `getAppByApkFiles` replies with the records of the parsable archives, in path order, each with its path patched in. |
| `DeviceAppsPluginKt.IsSystemApp` | android/src/main/java/fr/g123k/deviceapps/DeviceAppsPlugin.kt:107 | True iff the flags carry FLAG_SYSTEM or FLAG_UPDATED_SYSTEM_APP. |
| `DeviceAppsPluginKt.BooleanArg` | android/src/main/java/fr/g123k/deviceapps/DeviceAppsPlugin.kt:37-42 | An option is true iff it is present and is the Boolean true. Absent or null reads as false. |
| `DeviceAppsPluginKt.PackageNameArg` | android/src/main/java/fr/g123k/deviceapps/DeviceAppsPlugin.kt:48 | A string argument is its text. A missing or null one is "". |
| `DeviceAppsPluginKt.Dispatch` | android/src/main/java/fr/g123k/deviceapps/DeviceAppsPlugin.kt:34-67 | `getApp`, `isAppInstalled` and `openApp` give the error iff the name is missing, null or empty. Only four methods are known; every other name, `getAppByApkFiles` included, is not implemented. Each Boolean option of the command is the call's option, and an absent or null option is false. |
| `DeviceAppsPluginKt.NullOptionsAreFalse` | android/src/main/java/fr/g123k/deviceapps/DeviceAppsPlugin.kt:37-42 | Options sent as null read as false. |
| `DeviceAppsPluginKt.DispatchAgreesWithJava` | android/src/main/java/fr/g123k/deviceapps/DeviceAppsPlugin.kt:34-67 | On calls both handlers accept, Kotlin decides as Java does, except that `getAppByApkFiles` is not implemented. |
| `DeviceAppsPluginKt.GetAppData` | android/src/main/java/fr/g123k/deviceapps/DeviceAppsPlugin.kt:127-150 | Built only from API 28 on, where `longVersionCode` exists. Like Java, but `version_code` is `longVersionCode`, and `app_icon` is present iff asked and `getApplicationIcon` finds the package. |
| `DeviceAppsPluginKt.IconFailureKeepsRecord` | android/src/main/java/fr/g123k/deviceapps/DeviceAppsPlugin.kt:141-147 | A failed icon lookup only leaves out `app_icon`. All base keys and `category` stay. Apart from the version code, the record is the Java record without an icon. |
| `DeviceAppsPluginKt.SameSelectionAsJava` | android/src/main/java/fr/g123k/deviceapps/DeviceAppsPlugin.kt:88-97 | The Kotlin loop keeps the same packages, in the same order, as the Java loop. |
| `DeviceAppsPluginKt.GetInstalledAppsList` | android/src/main/java/fr/g123k/deviceapps/DeviceAppsPlugin.kt:84-99 | No context gives an empty list. Otherwise one record per kept installed package, in order. A record is built only from API 28 on. |
| `DeviceAppsPluginKt.IsAppInstalledCheck` | android/src/main/java/fr/g123k/deviceapps/DeviceAppsPlugin.kt:109-116 | True iff there is a context and the package is found. |
| `DeviceAppsPluginKt.GetAppRecord` | android/src/main/java/fr/g123k/deviceapps/DeviceAppsPlugin.kt:118-125 | Null iff there is no context or the package is not found; otherwise the package's record. A record is built only from API 28 on. |
| `DeviceAppsPluginKt.OpenAppActivity` | android/src/main/java/fr/g123k/deviceapps/DeviceAppsPlugin.kt:101-105 | False and nothing started without a context or a launch intent. Otherwise it starts the intent and returns true. |
| `DeviceAppsPluginKt.OnMethodCall` | android/src/main/java/fr/g123k/deviceapps/DeviceAppsPlugin.kt:34-67 | Rejected calls give the error and unknown ones notImplemented, and neither starts anything. Without a context every valid call gives an empty list, null or false. `openApp` answers the Boolean: true iff there is a context and a launch intent, and false otherwise. With a context, `isAppInstalled` and `getApp` answer as in Java, `getApp` returns the package's record, and `getInstalledApps` returns the records of the kept packages in order. A true `openApp` answer means exactly that package's launch intent was started, and nothing else starts an activity. A record is built only from API 28 on. |

## Left out

- Threading: AsyncWork's single background executor and the `Handler`/`Looper` hand-off back to the main thread are off-thread execution only. Each command is modelled as replying directly.
- Plugin and channel registration (`onAttachedToEngine`, `onDetachedFromEngine`, `MethodChannel`) are not modelled. The Java model assumes an attached context, as the Java code does. The Kotlin model takes the possibly-null context as a parameter.
- `loadLabel`, `loadIcon`, `getApplicationIcon`, Base64Utils and DrawableUtils are platform calls. Their results are oracle values (`loadedLabel`, `iconPng`, `applicationIcons`).
- For an archive, `loadLabel` and `loadIcon` read its resources through the `sourceDir` and `publicSourceDir` that `getAppByApkFiles` patches in first. `WithArchivePath` leaves the oracle fields `loadedLabel` and `iconPng` alone, so for archives those fields stand for the values read after the patch.
- Channel arguments are modelled as Booleans, strings and string lists only. Java's `getApp`, `isAppInstalled` and `openApp` take any non-null `package_name` through `toString()`, so a number such as 42 would name the package "42". Numbers, maps and other channel values are not modelled.
- `startActivity` is an opaque effect: the model returns the intent that would be started. What the started activity does is not modelled.
- AppChangeReceiver, IntentUtils and the constants classes hold no logic. Their strings are reused as names.
- The callback implementation behind DeviceAppsChangedListenerInterface is not part of this model. That covers the enabled/disabled decision, metadata snapshots and delivery to the sink. The model records each callback with the sink it is given.
- `register` and `unregister` receive a `Context`. The model keeps one OS log per listener and assumes every call uses the same context.
- Null-reference and failed-cast paths are preconditions, not outcomes. Listener: an intent without extras or a data string is excluded by its type. A CHANGED intent without a component list is excluded by `Receivable`. Java handler: a null or non-Boolean option, a null `package_name`, or a non-list `paths` is excluded by `Readable`. Kotlin handler: a non-Boolean option or a non-string `package_name` is excluded.
- JavaString.CharEqualsIgnoreCase: folds only the ASCII letters A-Z/a-z. Java's full Unicode case mapping is not modelled. Package names are ASCII.
- DeviceAppsPluginKt.GetAppData: `pInfo.longVersionCode` calls `PackageInfo.getLongVersionCode()`, which exists only from API 28. Below that, the Kotlin `getAppData` fails before it builds a record. The model therefore requires API 28 or later wherever a record is built (`BuildsRecord`). It does not model the failure itself. Calls that build no record work at every level.
- DeviceAppsPluginJava.WithArchivePath: the in-place write to the PackageInfo that `getPackageArchiveInfo` returned is modelled as a new value. That object is fresh per call, so no aliasing is lost.
- Integer widths (`int` version code, `long` version code and timestamps) are copied, never computed on, so unbounded integers lose nothing.
