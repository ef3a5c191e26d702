# Launcher core of yam launcher: app list refresh, app search, shortcut slots

This project models three pieces of sequential logic inside the launcher's
home-screen activity, `MainActivity`, and proves what they guarantee.

1. **App list refresh.** `listsEqual` compares two app lists position by
   position. It looks only at each entry's component name and user handle.
   `refreshAppMenu` replaces `installedApps` with a fresh enumeration only
   while no search is running (`isJobActive`) and only when the two lists differ.
2. **App search.** `filterItems` cleans the query and dispatches on the menu
   page that is showing. On the app page, `getFilteredApps` ends the search for
   a null or empty query. Otherwise it keeps, in enumeration order, every app
   whose cleaned name matches. A match means the fuzzy pattern is found (when
   fuzzy search is on) or the name contains the query ignoring case.
   `applySearchFilter` then either launches the only match, when auto-launch is
   armed, or shows the filtered list.
3. **Shortcut slots.** Each slot is a stored list of strings
   `[target, profileOrId, text, isContact]`. `setShortcuts` decodes it for the
   fifteen home-screen views. The rename listener rewrites the text. The bind
   handlers `onShortcut` and `onContactShortcut` write app and contact records.
   `launchShortcutSelection` opens a binding session unless shortcuts are locked.

Files and modules:

- `Text.dfy`: `Wrappers` (Option) and `Text`. `Text` holds the Kotlin library
  behaviour the core relies on: `String.toInt()` with its 32-bit range,
  `Int.toString()`, `String.toBoolean()`, `isNullOrBlank()` and case-insensitive
  character comparison.
- `Registry.dfy`: app entries and `listsEqual`.
- `Search.dfy`: the per-app match test, the filtered list, and its ordering
  and fuzzy-search lemmas.
- `Slots.dfy`: slot records, decoding, `setShortcuts` and the rename record.
- `Launcher.dfy`: a class holding the activity's fields (`installedApps`,
  `isJobActive`, `showHidden`, `menuView.displayedChild`, the adapters'
  shortcut index and view, the stored shortcut records). Its methods are the
  handlers that update those fields.

Some outside code has no body here, so the model takes it as input:

- `StringUtils.cleanString`, `SharedPreferenceManager.getAppName` and the
  fuzzy pattern of `StringUtils.getFuzzyPattern` are functions in a
  `SearchEnv` value. Every search property holds whatever those functions are.
- `AppUtils.getInstalledApps` is the `updatedApps` parameter.
- `launchApp` is the `launched` result.
- The contacts query is the `contactQuery` result.

Behaviour of the code that the model follows and that is easy to misread:

- For a null or empty cleaned query, the code pushes the fresh enumeration to
  the app menu adapter but does not assign it to `installedApps`.
  `GetFilteredApps` and `FilterItems` keep `installedApps` unchanged on that path.
- On the contact page, the code queries contacts only when the cleaned query is
  non-null and contacts are enabled. It does not put an empty string in place of a null query.
- Rename does not check whether the slot is empty. The rename listener is
  installed whenever the slot has a record, and a record whose field 1 is `"e"`
  is such a record. The code does not reject it as unbound: field 1 fails to
  parse, so the profile falls back to 0, and the slot comes back as an app
  binding to field 0, or as a contact with id 0 when its contact flag is true
  (`Slots.RenameBindsEmptySlot`).
- Selecting a slot with no record does not disarm renaming. The title's
  rename listener is replaced only when the selected slot has a record, and it
  is never cleared. After selecting a recorded slot and then an unrecorded one,
  confirming the title renames the first slot (`renameSlot` keeps its value).
- A binding session counts as active exactly when the app adapter's
  `shortcutTextView` is set. The code checks that field, not a separate mode flag.

## Model

| member | source | states |
|---|---|---|
| `Registry.ListsEqual` | app/src/main/java/eu/ottop/yamlauncher/MainActivity.kt:856-869 | returns true iff both lists have the same size and, at every position, the same component name and user handle; false whenever the sizes differ |
| `Registry.CosmeticChangesIgnored` | app/src/main/java/eu/ottop/yamlauncher/MainActivity.kt:856-869 | replacing the labels and profile indices of one list (`Relabeled`) never changes the comparison's result |
| `Registry.FlattenToString` | app/src/main/java/eu/ottop/yamlauncher/MainActivity.kt:1234 | the flattened name is the package name, one '/', then the class name |
| `Registry.SameIdentitiesIsEquivalence` | app/src/main/java/eu/ottop/yamlauncher/MainActivity.kt:856-869 | the comparison is reflexive, symmetric and transitive, so a list never counts as changed against itself |
| `Launcher.Launcher.constructor` | app/src/main/java/eu/ottop/yamlauncher/MainActivity.kt:121-124 | a new activity has no search running, does not show hidden apps, shows the app page and has no binding session |
| `Launcher.Launcher.RefreshAppMenu` | app/src/main/java/eu/ottop/yamlauncher/MainActivity.kt:839-854 | nothing changes while a search runs or when the enumeration has the same identities; otherwise `installedApps` and the menu become the enumeration; afterwards, with no search running, `installedApps` agrees with the enumeration |
| `Launcher.Launcher.GetFilteredApps` | app/src/main/java/eu/ottop/yamlauncher/MainActivity.kt:1101-1138 | null or empty query: marks no search running, shows the whole enumeration, returns null; otherwise marks a search running and returns exactly the matching apps in enumeration order, leaving the menu alone |
| `Launcher.Launcher.ApplySearchFilter` | app/src/main/java/eu/ottop/yamlauncher/MainActivity.kt:1140-1147 | launches iff auto-launch is on, the app page shows, no binding session is open and there is exactly one match; a launch is that single app and changes no list; otherwise `installedApps` and the menu become the filtered list |
| `Launcher.Launcher.FilterItems` | app/src/main/java/eu/ottop/yamlauncher/MainActivity.kt:1081-1099 | off the app page nothing is launched and no app list changes; the contact page queries contacts with the cleaned query iff contacts are enabled and it is non-null; on the app page an empty query never launches, a non-empty one launches or shows exactly the filtered matches |
| `Launcher.Launcher.OpenAppMenu` | app/src/main/java/eu/ottop/yamlauncher/MainActivity.kt:617-627 | unless the app drawer is hidden, ends the binding session in both adapters and shows the app page; otherwise changes nothing |
| `Launcher.Launcher.LaunchShortcutSelection` | app/src/main/java/eu/ottop/yamlauncher/MainActivity.kt:294-327 | returns false and changes nothing when shortcuts are locked; otherwise returns true, records the slot in both adapters, arms renaming of this slot iff it had a record (otherwise an earlier slot's rename stays armed), turns on hidden apps when configured and shows the app page |
| `Launcher.Launcher.RenameShortcut` | app/src/main/java/eu/ottop/yamlauncher/MainActivity.kt:329-362 | a blank title is refused and leaves the store unchanged; a non-blank one replaces only the renamed slot's record, with `RenamedRecord` |
| `Launcher.Launcher.OnShortcut` | app/src/main/java/eu/ottop/yamlauncher/MainActivity.kt:1204-1239 | stores an app record (flattened component, profile, text, contact flag false) in the slot being bound and nowhere else |
| `Launcher.Launcher.OnContactShortcut` | app/src/main/java/eu/ottop/yamlauncher/MainActivity.kt:1352-1367 | stores a contact record (name, contact id, name as text, contact flag true) in the slot being bound and nowhere else |
| `Search.ContainsIgnoreCase` | app/src/main/java/eu/ottop/yamlauncher/MainActivity.kt:1130 | the empty query is contained in every name; a contained query is never longer than the name |
| `Search.ContainsIgnoreCaseWindow` | app/src/main/java/eu/ottop/yamlauncher/MainActivity.kt:1130 | a name contains the query ignoring case iff some window of the name, at some offset, equals the query character by character ignoring case |
| `Search.IsMatch` | app/src/main/java/eu/ottop/yamlauncher/MainActivity.kt:1120-1131 | an app matches only when its cleaned name is non-null; with a non-null name the empty query always matches; with fuzzy search off, it matches iff the cleaned name contains the query ignoring case |
| `Search.Filtered` | app/src/main/java/eu/ottop/yamlauncher/MainActivity.kt:1119-1135 | the result is no longer than the enumeration and every app in it matches |
| `Search.FilteredSnoc` | app/src/main/java/eu/ottop/yamlauncher/MainActivity.kt:1118-1133 | one more enumerated app is appended to the result exactly when it matches |
| `Search.FilteredMembers` | app/src/main/java/eu/ottop/yamlauncher/MainActivity.kt:1118-1133 | an app is in the result iff it is enumerated and its cleaned name is non-null and matches |
| `Search.FilteredIsSubsequence` | app/src/main/java/eu/ottop/yamlauncher/MainActivity.kt:1118-1133 | the result is an order-preserving subsequence of the enumeration |
| `Search.FuzzyMatchIsWeaker` | app/src/main/java/eu/ottop/yamlauncher/MainActivity.kt:1126-1129 | an app that matches with fuzzy search off also matches with it on |
| `Search.FuzzyOnlyAdds` | app/src/main/java/eu/ottop/yamlauncher/MainActivity.kt:1113-1133 | the result with fuzzy search off is a subsequence of the result with it on |
| `Search.LongerQueryNotContained` | app/src/main/java/eu/ottop/yamlauncher/MainActivity.kt:1130 | a query longer than a name is never contained in it |
| `Search.PlainLabelMatch` | app/src/main/java/eu/ottop/yamlauncher/MainActivity.kt:1119-1125 | when cleaning is the identity and there are no aliases, an app matches (fuzzy off) iff its label contains the query ignoring case |
| `Search.ExampleLabels` | app/src/main/java/eu/ottop/yamlauncher/MainActivity.kt:1130 | "cal" is contained in "Calculator" and "Calendar" ignoring case; "Calcu" only in "Calculator" |
| `Search.ExampleMatches` | app/src/main/java/eu/ottop/yamlauncher/MainActivity.kt:1119-1129 | for plain cleaning, "Calculator" matches "cal" and "Calcu", "Calendar" matches "cal" but not "Calcu" |
| `Search.FilteredPair` | app/src/main/java/eu/ottop/yamlauncher/MainActivity.kt:1118-1133 | the result for two apps keeps each one that matches, first before second |
| `Search.CalendarExample` | app/src/main/java/eu/ottop/yamlauncher/MainActivity.kt:1110-1136 | "cal" selects Calculator then Calendar, in enumeration order; "Calcu" selects only Calculator |
| `Slots.IsContactRecord` | app/src/main/java/eu/ottop/yamlauncher/MainActivity.kt:406 | a record is a contact iff it has a field 3 and that field is four characters that lower-case to "true"; a record with at most three fields is never a contact |
| `Slots.ShortcutRecord` | app/src/main/java/eu/ottop/yamlauncher/MainActivity.kt:1231-1236 | a written record has four fields whose target and text are as given and whose profile and contact flag parse back to the values written |
| `Slots.ShortcutSetup` | app/src/main/java/eu/ottop/yamlauncher/MainActivity.kt:403-415 | no record gives the null-text view; a record with field 3 true and a numeric field 1 is a contact with that id; a record with field 3 not true is an app, with the work-profile marker iff field 1 is not "0"; text is field 2 |
| `Slots.DecodeSlot` | app/src/main/java/eu/ottop/yamlauncher/MainActivity.kt:238-260 | a slot is hidden iff its index is at or beyond the shortcut number; a shown slot is empty iff field 1 is "e", and a shown slot with no record or another field 1 is what `ShortcutSetup` makes of its record; contacts only from records with a true field 3; apps get the work-profile marker iff field 1 is not "0" |
| `Slots.SetShortcuts` | app/src/main/java/eu/ottop/yamlauncher/MainActivity.kt:219-265 | yields one view per home-screen shortcut view (fifteen), each the decoding of that slot's stored record |
| `Slots.DecodeWrittenRecord` | app/src/main/java/eu/ottop/yamlauncher/MainActivity.kt:403-415 | in a shown slot, a record written for a contact decodes as that contact, one written for an app as that app with the work-profile marker iff the profile is not 0 |
| `Slots.RenamedRecord` | app/src/main/java/eu/ottop/yamlauncher/MainActivity.kt:341-357 | the renamed record keeps field 0 and the contact flag (false when absent), takes the new title, and stores field 1's number, or 0 when it does not parse |
| `Slots.RenameKeepsBinding` | app/src/main/java/eu/ottop/yamlauncher/MainActivity.kt:341-357 | renaming a written record changes its text and nothing else |
| `Slots.RenameBindsEmptySlot` | app/src/main/java/eu/ottop/yamlauncher/MainActivity.kt:329-358 | renaming an empty ("e") slot stores a record that decodes as a binding with profile or contact id 0: a contact named by the title when the slot's contact flag is true, otherwise an app binding to field 0 |
| `Text.ParseInt` | app/src/main/java/eu/ottop/yamlauncher/MainActivity.kt:343-357 | `toInt()` succeeds iff, after an optional '-' or '+', the text is a non-empty run of digits whose signed value fits in 32 bits, and the result is that signed value |
| `Text.ParseIntRejectsNonDigit` | app/src/main/java/eu/ottop/yamlauncher/MainActivity.kt:348 | any non-digit after the optional sign makes `toInt()` fail |
| `Text.ParseIntRejectsSignsAndMarker` | app/src/main/java/eu/ottop/yamlauncher/MainActivity.kt:348 | the empty text, a sign alone and the empty-slot marker "e" do not parse as numbers |
| `Text.IntToString` | app/src/main/java/eu/ottop/yamlauncher/MainActivity.kt:1231-1236 | the text of a number starts with '-' iff the number is negative, followed by a non-empty run of digits; the text of a non-negative number is digits only |
| `Text.ParseIntToString` | app/src/main/java/eu/ottop/yamlauncher/MainActivity.kt:343-349 | a profile or contact id written as text parses back to the same number |
| `Text.IntToStringZero` | app/src/main/java/eu/ottop/yamlauncher/MainActivity.kt:410-412 | a number's text is "0" iff the number is 0 |
| `Text.BoolToString` | app/src/main/java/eu/ottop/yamlauncher/MainActivity.kt:406 | the written contact flag reads back with `toBoolean()` as the flag written |
| `Text.ParseBool` | app/src/main/java/eu/ottop/yamlauncher/MainActivity.kt:406 | `toBoolean()` is true iff the text is four characters that lower-case to "true" |
| `Text.IsBlank` | app/src/main/java/eu/ottop/yamlauncher/MainActivity.kt:333 | the empty title is blank; a blank title holds no digit or ASCII letter, so it neither parses as a number nor as true |

## Left out

- View work: inflation, theming, fonts, alignment, icons as drawables, animations, keyboard handling and the preference-change restyling. The model keeps only the decisions these views depend on.
- Gestures (`GestureListener.onFling`): float geometry, velocity thresholds and a reflective call into `StatusBarManager`.
- Coroutines, `lifecycleScope`, dispatchers, `handler.postDelayed` and the periodic refresh loops. The model has one refresh or filter step as a method call. The delayed refresh posted by `backToHome` and the refresh launched by `launchShortcutSelection` when hidden shortcuts are shown are not modelled as automatic steps; a caller makes them with `RefreshAppMenu`.
- `getContacts`, `AppUtils.getInstalledApps`, `LauncherApps` lookups, `launchApp` and opening a contact: platform calls. Enumerations are parameters; a launch and a contact query are results.
- `StringUtils.cleanString`, `getFuzzyPattern`, `addStartTextIfNotEmpty` and `SharedPreferenceManager.getAppName` are not part of this model. `cleanString`, `getFuzzyPattern` and `getAppName`, which the search uses, are fields of `SearchEnv`. `addStartTextIfNotEmpty` and `modifyDate`'s formatting are not modelled.
- `SharedPreferenceManager` is not part of this model. `Slots.ShortcutRecord` assumes `setShortcut` writes `[target, profile.toString(), text, isContact.toString()]`, with `isContact` false when not given. `Slots.Lookup` assumes `getShortcut` returns null for a slot with no record.
- Tapping a bound app slot (`setShortcutListeners`) resolves the target through `LauncherApps`. It is a platform lookup and is not modelled; the decoded view records only the target and the work-profile marker.
- Biometric settings lock, weather and GPS, the battery receiver and permission checks in `onResume`: I/O and platform services.
- Text.CharEqualsIgnoreCase: letter case is folded for ASCII letters only. Kotlin folds all Unicode letters, so names with non-ASCII letters may match more in the app than in the model. For `toBoolean()`, which compares with "true", ASCII folding is exact.
- Text.ParseInt: accepts ASCII digits only. Kotlin's `toInt()` also accepts other Unicode decimal digits.
- Launcher.Launcher.RenameShortcut: requires the slot's record to exist and to have at least two fields. The code dereferences the record with `!!` and reads fields 0 and 1 without a guard, so it would throw otherwise.
- Launcher.Launcher.RefreshAppMenu, Launcher.Launcher.OpenAppMenu, Launcher.Launcher.LaunchShortcutSelection and Launcher.Launcher.ApplySearchFilter: the model is the activity after `setupApps` has run, with `installedApps` initialised and both adapters and views present. The catches of `UninitializedPropertyAccessException` in `refreshAppMenu` and in `toAppMenu` (which would leave the page unchanged), the `?.` calls that do nothing on a null adapter, and `applySearchFilter` reading a null app adapter as no binding session are not modelled.
- Slots.DecodeSlot: where the code would throw on a short record or a non-numeric contact id, the model returns the `Broken` view instead of modelling the exception.
