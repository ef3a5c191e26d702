/**
 * The state of `MainActivity` that the refresh, search and shortcut handlers
 * update, and those handlers as methods. Enumerating installed apps, launching
 * an app, querying contacts and all view work are outside the model: an
 * enumeration arrives as a parameter, a launch or a contact query is returned.
 */
module Launcher {
  import opened Wrappers
  import opened Text
  import opened Registry
  import opened Search
  import opened Slots

  /** The settings the handlers read from the preference store. */
  datatype Settings = Settings(
    shortcutsLocked: bool,
    fuzzySearch: bool,
    autoLaunch: bool,
    contactsEnabled: bool,
    showHiddenShortcuts: bool,
    appDrawerHidden: bool)

  /** `menuView.displayedChild` when the app list is showing. */
  const AppsView: int := 0
  /** `menuView.displayedChild` when the contact list is showing. */
  const ContactsView: int := 1

  class Launcher {
    var settings: Settings
    /** `installedApps`: the list the app menu was last built from. */
    var installedApps: seq<App>
    /** The list last handed to the app menu adapter (`updateMenu`). */
    var menuApps: seq<App>
    /** `isJobActive`: true while no search is in progress. */
    var isJobActive: bool
    /** `showHidden`: enumerate hidden apps as well (while binding a shortcut). */
    var showHidden: bool
    /** `menuView.displayedChild`. */
    var displayedChild: int
    /** `appAdapter.shortcutIndex` and `appAdapter.shortcutTextView` (as the slot whose view it is). */
    var appShortcutIndex: int
    var appShortcutView: Option<int>
    /** `contactAdapter.shortcutIndex` and `contactAdapter.shortcutTextView`. */
    var contactShortcutIndex: int
    var contactShortcutView: Option<int>
    /** The slot whose rename listener is installed on the menu title, if any. */
    var renameSlot: Option<int>
    /** The shortcut records of the preference store, by slot index. */
    var shortcuts: map<int, seq<string>>

    constructor (settings: Settings, shortcuts: map<int, seq<string>>, installedApps: seq<App>)
      ensures this.settings == settings && this.shortcuts == shortcuts
      ensures this.installedApps == installedApps && menuApps == installedApps
      ensures isJobActive && !showHidden && displayedChild == AppsView
      ensures appShortcutView == None && contactShortcutView == None && renameSlot == None
    {
      this.settings := settings;
      this.shortcuts := shortcuts;
      this.installedApps := installedApps;
      menuApps := installedApps;
      isJobActive := true;
      showHidden := false;
      displayedChild := AppsView;
      appShortcutIndex := 0;
      appShortcutView := None;
      contactShortcutIndex := 0;
      contactShortcutView := None;
      renameSlot := None;
    }

    /** A shortcut-binding session is open: the app adapter has a shortcut view. */
    predicate Binding()
      reads this
    {
      appShortcutView.Some?
    }

    /** The four conditions under which `applySearchFilter` launches instead of showing. */
    predicate AutoLaunchArmed(matches: int)
      reads this
    {
      settings.autoLaunch && displayedChild == AppsView && !Binding() && matches == 1
    }

    /**
     * One step of `refreshAppMenu`, given what `getInstalledApps(showHidden)`
     * returned: while no search is running and the new list differs from
     * `installedApps` in a component or user handle, show it and keep it.
     */
    method RefreshAppMenu(updatedApps: seq<App>)
      modifies this`installedApps, this`menuApps
      ensures if old(isJobActive) && !SameIdentities(old(installedApps), updatedApps)
              then installedApps == updatedApps && menuApps == updatedApps
              else installedApps == old(installedApps) && menuApps == old(menuApps)
      ensures isJobActive ==> SameIdentities(installedApps, updatedApps)
    {
      if isJobActive {
        var same := ListsEqual(installedApps, updatedApps);
        if !same {
          menuApps := updatedApps;
          installedApps := updatedApps;
        }
        SameIdentitiesIsEquivalence(installedApps, updatedApps, updatedApps);
      }
    }

    /**
     * `getFilteredApps`: for a null or empty cleaned query, end the search, show
     * the whole enumeration and return null; otherwise start a search and
     * return the matching apps in enumeration order.
     */
    method GetFilteredApps(env: SearchEnv, cleanQuery: Option<string>, updatedApps: seq<App>)
      returns (filtered: Option<seq<App>>)
      modifies this`isJobActive, this`menuApps
      ensures cleanQuery == None || cleanQuery == Some("") ==>
                filtered == None && isJobActive && menuApps == updatedApps
      ensures cleanQuery != None && cleanQuery != Some("") ==>
                filtered == Some(Filtered(env, cleanQuery.value, settings.fuzzySearch, updatedApps))
                && !isJobActive && menuApps == old(menuApps)
    {
      if cleanQuery == None || cleanQuery == Some("") {
        isJobActive := true;
        menuApps := updatedApps;
        return None;
      }
      isJobActive := false;
      var query := cleanQuery.value;
      var fuzzyOn := settings.fuzzySearch;
      var newFilteredApps: seq<App> := [];
      for i := 0 to |updatedApps|
        invariant newFilteredApps == Filtered(env, query, fuzzyOn, updatedApps[..i])
        invariant !isJobActive && menuApps == old(menuApps)
      {
        var app := updatedApps[i];
        FilteredSnoc(env, query, fuzzyOn, updatedApps[..i], app);
        assert updatedApps[..i + 1] == updatedApps[..i] + [app];
        var cleanItemText := CleanItemText(env, app);
        if cleanItemText.Some? {
          var text := cleanItemText.value;
          if (fuzzyOn && env.fuzzy(query, text)) || ContainsIgnoreCase(text, query) {
            newFilteredApps := newFilteredApps + [app];
          }
        }
      }
      assert updatedApps[..|updatedApps|] == updatedApps;
      return Some(newFilteredApps);
    }

    /**
     * `applySearchFilter`: launch the only match when auto-launch is armed,
     * otherwise show the filtered list and keep it as `installedApps`.
     */
    method ApplySearchFilter(newFilteredApps: seq<App>) returns (launched: Option<App>)
      modifies this`installedApps, this`menuApps
      ensures launched.Some? <==> AutoLaunchArmed(|newFilteredApps|)
      ensures launched.Some? ==> [launched.value] == newFilteredApps
                                 && installedApps == old(installedApps) && menuApps == old(menuApps)
      ensures launched.None? ==> installedApps == newFilteredApps && menuApps == newFilteredApps
    {
      if settings.autoLaunch && displayedChild == AppsView && appShortcutView.None? && |newFilteredApps| == 1 {
        return Some(newFilteredApps[0]);
      }
      menuApps := newFilteredApps;
      installedApps := newFilteredApps;
      return None;
    }

    /**
     * `filterItems`: clean the query, then on the app list filter the fresh
     * enumeration and apply the result; on the contact list ask for the
     * contacts matching a non-null cleaned query when contacts are enabled.
     */
    method FilterItems(env: SearchEnv, query: string, updatedApps: seq<App>)
      returns (launched: Option<App>, contactQuery: Option<string>)
      modifies this`isJobActive, this`menuApps, this`installedApps
      ensures displayedChild != AppsView ==>
                launched == None && isJobActive == old(isJobActive)
                && installedApps == old(installedApps) && menuApps == old(menuApps)
      ensures contactQuery == if displayedChild == ContactsView && settings.contactsEnabled
                              then env.clean(query) else None
      ensures displayedChild == AppsView && env.clean(query) in {None, Some("")} ==>
                launched == None && isJobActive
                && menuApps == updatedApps && installedApps == old(installedApps)
      ensures displayedChild == AppsView && env.clean(query) !in {None, Some("")} ==>
                var matches := Filtered(env, env.clean(query).value, settings.fuzzySearch, updatedApps);
                !isJobActive
                && (launched.Some? <==> AutoLaunchArmed(|matches|))
                && (launched.Some? ==> [launched.value] == matches
                                       && installedApps == old(installedApps) && menuApps == old(menuApps))
                && (launched.None? ==> installedApps == matches && menuApps == matches)
    {
      launched, contactQuery := None, None;
      var cleanQuery := env.clean(query);
      if displayedChild == AppsView {
        var filtered := GetFilteredApps(env, cleanQuery, updatedApps);
        if filtered.Some? {
          launched := ApplySearchFilter(filtered.value);
        }
      } else if displayedChild == ContactsView {
        if settings.contactsEnabled && cleanQuery.Some? {
          contactQuery := cleanQuery;
        }
      }
    }

    /**
     * `openAppMenu`: unless the app drawer is hidden, end any shortcut-binding
     * session and show the app list.
     */
    method OpenAppMenu()
      modifies this`appShortcutView, this`contactShortcutView, this`displayedChild
      ensures settings.appDrawerHidden ==>
                appShortcutView == old(appShortcutView) && contactShortcutView == old(contactShortcutView)
                && displayedChild == old(displayedChild)
      ensures !settings.appDrawerHidden ==>
                appShortcutView == None && contactShortcutView == None && displayedChild == AppsView
    {
      if settings.appDrawerHidden {
        return;
      }
      appShortcutView := None;
      contactShortcutView := None;
      displayedChild := AppsView;
    }

    /**
     * `launchShortcutSelection` for slot `index` whose record was `savedView`
     * when the home screen was set up: refused while shortcuts are locked;
     * otherwise record the slot in both adapters, arm the rename listener when
     * there was a record, show hidden apps when so configured, and open the app
     * list.
     */
    method LaunchShortcutSelection(index: int, savedView: Option<seq<string>>) returns (handled: bool)
      modifies this`appShortcutIndex, this`appShortcutView, this`contactShortcutIndex,
               this`contactShortcutView, this`renameSlot, this`showHidden, this`displayedChild
      ensures handled == !settings.shortcutsLocked
      ensures !handled ==>
                appShortcutIndex == old(appShortcutIndex) && appShortcutView == old(appShortcutView)
                && contactShortcutIndex == old(contactShortcutIndex)
                && contactShortcutView == old(contactShortcutView)
                && renameSlot == old(renameSlot) && showHidden == old(showHidden)
                && displayedChild == old(displayedChild)
      ensures handled ==>
                appShortcutIndex == index && appShortcutView == Some(index)
                && contactShortcutIndex == index && contactShortcutView == Some(index)
                && renameSlot == (if savedView.Some? then Some(index) else old(renameSlot))
                && showHidden == (old(showHidden) || settings.showHiddenShortcuts)
                && displayedChild == AppsView
    {
      if settings.shortcutsLocked {
        return false;
      }
      if savedView.Some? {
        renameSlot := Some(index);
      }
      appShortcutIndex := index;
      appShortcutView := Some(index);
      contactShortcutIndex := index;
      contactShortcutView := Some(index);
      if settings.showHiddenShortcuts {
        showHidden := true;
      }
      displayedChild := AppsView;
      return true;
    }

    /**
     * The rename listener on the menu title, when the editor action is "done":
     * a blank title is refused and nothing is stored; otherwise the slot's
     * record is rewritten with the new title, and the launcher returns home.
     */
    method RenameShortcut(title: string) returns (accepted: bool)
      requires renameSlot.Some? && renameSlot.value in shortcuts && |shortcuts[renameSlot.value]| >= 2
      modifies this`shortcuts, this`showHidden
      ensures accepted == !IsBlank(title)
      ensures !accepted ==> shortcuts == old(shortcuts) && showHidden == old(showHidden)
      ensures accepted ==>
                shortcuts == old(shortcuts)[renameSlot.value := RenamedRecord(old(shortcuts)[renameSlot.value], title)]
                && !showHidden
    {
      if IsBlank(title) {
        return false;
      }
      var index := renameSlot.value;
      var savedView := shortcuts[index];
      var profile: Int32;
      match ParseInt(savedView[1]) {
        case Some(p) => profile := p;
        case None => profile := 0;
      }
      shortcuts := shortcuts[index := ShortcutRecord(title, savedView[0], profile, IsContactRecord(savedView))];
      showHidden := false;
      return true;
    }

    /**
     * `onShortcut`: bind the slot being set to an app, stored as an app record
     * (contact flag false), and return home.
     */
    method OnShortcut(app: App, text: string, userProfile: Int32, shortcutIndex: int)
      modifies this`shortcuts, this`showHidden
      ensures shortcuts == old(shortcuts)[shortcutIndex := ShortcutRecord(text, FlattenToString(app.component), userProfile, false)]
      ensures !showHidden
    {
      shortcuts := shortcuts[shortcutIndex := ShortcutRecord(text, FlattenToString(app.component), userProfile, false)];
      showHidden := false;
    }

    /**
     * `onContactShortcut`: bind the slot being set to a contact, stored with
     * the contact's name as target and text and the contact flag true, and
     * return home.
     */
    method OnContactShortcut(contactId: Int32, contactName: string, shortcutIndex: int)
      modifies this`shortcuts, this`showHidden
      ensures shortcuts == old(shortcuts)[shortcutIndex := ShortcutRecord(contactName, contactName, contactId, true)]
      ensures !showHidden
    {
      shortcuts := shortcuts[shortcutIndex := ShortcutRecord(contactName, contactName, contactId, true)];
      showHidden := false;
    }
  }
}
