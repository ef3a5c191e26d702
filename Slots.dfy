/**
 * The persisted shortcut slots of the home screen. Each slot's record is a
 * list of strings `[target, profileOrId, text, isContact]`: the flattened
 * component name (or the contact's name), the profile index (or the contact
 * id), the text shown on the home screen, and whether it is a contact.
 *
 * `SharedPreferenceManager` is not part of this model; `ShortcutRecord` states
 * the record layout its `setShortcut` is taken to write, and an absent key
 * reads as null.
 */
module Slots {
  import opened Wrappers
  import opened Text

  /** The home screen has the fifteen shortcut views `app1` .. `app15`. */
  const ShortcutViews: nat := 15

  /** What one shortcut view shows after `setShortcuts`. */
  datatype SlotView =
    /** index >= the configured shortcut number: the view is gone */
    | Hidden
    /** no record at all: null text, the work-profile icon, taps do nothing */
    | Unrecorded
    /** field 1 is "e": the default text and a "not set" hint on tap */
    | EmptySlot
    /** a contact binding: tapping opens the contact */
    | ContactShortcut(text: string, contactId: Int32)
    /** an app binding, with the work-profile icon when field 1 is not "0" */
    | AppShortcut(text: string, target: string, workProfile: bool)
    /** a field the code reads without a guard is missing or not a number: it throws */
    | Broken

  /** `getShortcut(index)`: the stored record, or null. */
  function Lookup(store: map<int, seq<string>>, index: int): (r: Option<seq<string>>)
    ensures r.Some? <==> index in store
    ensures r.Some? ==> r.value == store[index]
  {
    if index in store then Some(store[index]) else None
  }

  /**
   * `setShortcut(index, text, target, profile, isContact)`: the record written
   * for a slot. Every field reads back as what was written.
   */
  function ShortcutRecord(text: string, target: string, profile: Int32, isContact: bool): (r: seq<string>)
    ensures |r| == 4 && r[0] == target && r[2] == text
    ensures ParseInt(r[1]) == Some(profile)
    ensures ParseBool(r[3]) == isContact
  {
    ParseIntToString(profile);
    [target, IntToString(profile), text, BoolToString(isContact)]
  }

  /** `savedView.getOrNull(3)?.toBoolean() ?: false`. */
  predicate IsContactRecord(saved: seq<string>)
    ensures |saved| <= 3 ==> !IsContactRecord(saved)
    ensures IsContactRecord(saved) ==> |saved[3]| == 4
    ensures IsContactRecord(saved) <==> |saved| > 3 && |saved[3]| == 4
                                        && forall i :: 0 <= i < 4 ==> LowerAscii(saved[3][i]) == "true"[i]
  {
    |saved| > 3 && ParseBool(saved[3])
  }

  /**
   * `setShortcutSetup` for a slot that is shown and not "e": the text is
   * field 2, a contact record opens the contact whose id is field 1, and any
   * other record is an app, marked as a work-profile app unless field 1 is "0".
   */
  function ShortcutSetup(saved: Option<seq<string>>): (v: SlotView)
    requires saved.Some? ==> |saved.value| >= 2
    ensures v != Hidden && v != EmptySlot
    ensures v == Unrecorded <==> saved.None?
    ensures v.ContactShortcut? <==> saved.Some? && |saved.value| >= 3 && IsContactRecord(saved.value)
                                    && ParseInt(saved.value[1]).Some?
    ensures v.ContactShortcut? ==> v.text == saved.value[2] && Some(v.contactId) == ParseInt(saved.value[1])
    ensures v.AppShortcut? <==> saved.Some? && |saved.value| >= 3 && !IsContactRecord(saved.value)
    ensures v.AppShortcut? ==> v.text == saved.value[2] && v.target == saved.value[0]
                               && (v.workProfile <==> saved.value[1] != "0")
  {
    match saved
    case None => Unrecorded
    case Some(f) =>
      if |f| < 3 then Broken
      else if IsContactRecord(f) then
        match ParseInt(f[1])
        case Some(id) => ContactShortcut(f[2], id)
        case None => Broken
      else AppShortcut(f[2], f[0], f[1] != "0")
  }

  /**
   * What `setShortcuts` makes of slot `index`: hidden at or beyond the
   * configured number, empty when field 1 is "e", otherwise `ShortcutSetup`.
   */
  function DecodeSlot(index: int, shortcutNumber: int, saved: Option<seq<string>>): (v: SlotView)
    ensures v == Hidden <==> index >= shortcutNumber
    ensures v == EmptySlot <==> index < shortcutNumber && saved.Some? && |saved.value| >= 2 && saved.value[1] == "e"
    ensures v.ContactShortcut? ==> saved.Some? && IsContactRecord(saved.value)
    ensures v.AppShortcut? ==> saved.Some? && |saved.value| >= 3 && !IsContactRecord(saved.value)
                               && (v.workProfile <==> saved.value[1] != "0")
    ensures index < shortcutNumber && (saved.None? || (|saved.value| >= 2 && saved.value[1] != "e"))
            ==> v == ShortcutSetup(saved)
  {
    if index >= shortcutNumber then Hidden
    else if saved.Some? && |saved.value| < 2 then Broken
    else if saved.Some? && saved.value[1] == "e" then EmptySlot
    else ShortcutSetup(saved)
  }

  /**
   * `setShortcuts`: visit the fifteen shortcut views in order, hiding those at
   * or beyond the configured number and setting up the others from their
   * stored records.
   */
  method SetShortcuts(store: map<int, seq<string>>, shortcutNumber: int) returns (views: seq<SlotView>)
    ensures |views| == ShortcutViews
    ensures forall i :: 0 <= i < ShortcutViews ==> views[i] == DecodeSlot(i, shortcutNumber, Lookup(store, i))
  {
    views := [];
    for i := 0 to ShortcutViews
      invariant |views| == i
      invariant forall k :: 0 <= k < i ==> views[k] == DecodeSlot(k, shortcutNumber, Lookup(store, k))
    {
      var view;
      if i >= shortcutNumber {
        view := Hidden;
      } else {
        var saved := Lookup(store, i);
        if saved.Some? && |saved.value| < 2 {
          view := Broken;
        } else if saved.None? || saved.value[1] != "e" {
          view := ShortcutSetup(saved);
        } else {
          view := EmptySlot;
        }
      }
      views := views + [view];
    }
  }

  /** A record written by `setShortcut` reads back, in a shown slot, as the binding it was written for. */
  lemma DecodeWrittenRecord(index: int, shortcutNumber: int, text: string, target: string, profile: Int32, isContact: bool)
    requires index < shortcutNumber
    ensures DecodeSlot(index, shortcutNumber, Some(ShortcutRecord(text, target, profile, isContact)))
         == if isContact then ContactShortcut(text, profile) else AppShortcut(text, target, profile != 0)
  {
    var r := ShortcutRecord(text, target, profile, isContact);
    assert r[1] != "e" by {
      assert ParseInt(r[1]).Some?;
    }
    IntToStringZero(profile);
  }

  /**
   * The record stored by a rename (`setRenameShortcutListener`): field 0 and
   * the contact flag (false when field 3 is absent) are kept, the text is the
   * new title, and the profile is field 1 parsed, or 0 when it does not parse.
   */
  function RenamedRecord(saved: seq<string>, title: string): (r: seq<string>)
    requires |saved| >= 2
    ensures |r| == 4 && r[0] == saved[0] && r[2] == title
    ensures ParseBool(r[3]) == IsContactRecord(saved)
    ensures ParseInt(saved[1]).Some? ==> ParseInt(r[1]) == ParseInt(saved[1])
    ensures ParseInt(saved[1]).None? ==> ParseInt(r[1]) == Some(0)
  {
    var profile: Int32 := match ParseInt(saved[1]) case Some(p) => p case None => 0;
    ShortcutRecord(title, saved[0], profile, IsContactRecord(saved))
  }

  /** Renaming a written binding changes its text and nothing else. */
  lemma RenameKeepsBinding(text: string, target: string, profile: Int32, isContact: bool, title: string)
    ensures RenamedRecord(ShortcutRecord(text, target, profile, isContact), title)
         == ShortcutRecord(title, target, profile, isContact)
  {
    var r := ShortcutRecord(text, target, profile, isContact);
    assert ParseInt(r[1]) == Some(profile);
    assert IsContactRecord(r) == isContact;
  }

  /**
   * Renaming does not look at field 1 being "e": the renamed record of an
   * empty slot, shown, decodes as a binding in profile (or contact id) 0 — a
   * contact when the slot's contact flag is true, otherwise an app bound to
   * field 0.
   */
  lemma RenameBindsEmptySlot(index: int, shortcutNumber: int, saved: seq<string>, title: string)
    requires index < shortcutNumber && |saved| >= 2 && saved[1] == "e"
    ensures DecodeSlot(index, shortcutNumber, Some(saved)) == EmptySlot
    ensures DecodeSlot(index, shortcutNumber, Some(RenamedRecord(saved, title)))
         == if IsContactRecord(saved) then ContactShortcut(title, 0) else AppShortcut(title, saved[0], false)
  {
    ParseIntRejectsSignsAndMarker();
    var r := RenamedRecord(saved, title);
    assert r == ShortcutRecord(title, saved[0], 0, IsContactRecord(saved));
    DecodeWrittenRecord(index, shortcutNumber, title, saved[0], 0, IsContactRecord(saved));
  }
}
