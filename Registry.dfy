/**
 * The installed-app list of the launcher: one entry per launchable activity,
 * as `Triple<LauncherActivityInfo, UserHandle, Int>` in MainActivity, and the
 * comparison `listsEqual` that decides whether a fresh enumeration is a real
 * change.
 */
module Registry {

  /** An Android `ComponentName`: package and class. */
  datatype Component = Component(packageName: string, className: string)

  /** `ComponentName.flattenToString()`: "package/class". */
  function FlattenToString(c: Component): (s: string)
    ensures |s| == |c.packageName| + 1 + |c.className| && s[|c.packageName|] == '/'
    ensures s[..|c.packageName|] == c.packageName && s[|c.packageName| + 1..] == c.className
  {
    c.packageName + "/" + c.className
  }

  /**
   * One installed-app entry: the activity's component and label (the
   * `LauncherActivityInfo`), the `UserHandle` it belongs to (modelled by the
   * handle's user serial), and the profile index (the `Int` of the triple).
   */
  datatype App = App(component: Component, activityLabel: string, user: int, profile: int)

  /** The two things `listsEqual` compares at one position. */
  predicate SameIdentity(a: App, b: App)
  {
    a.component == b.component && a.user == b.user
  }

  /** Equal length and the same component and user handle at every position. */
  predicate SameIdentities(xs: seq<App>, ys: seq<App>)
  {
    |xs| == |ys| && forall i :: 0 <= i < |xs| ==> SameIdentity(xs[i], ys[i])
  }

  /** `apps` with each entry's label and profile index replaced, the identities kept. */
  function Relabeled(apps: seq<App>, labels: seq<string>, profiles: seq<int>): (r: seq<App>)
    requires |labels| == |apps| && |profiles| == |apps|
    ensures |r| == |apps|
    ensures forall i :: 0 <= i < |r| ==>
              r[i].activityLabel == labels[i] && r[i].profile == profiles[i]
              && r[i].component == apps[i].component && r[i].user == apps[i].user
  {
    seq(|apps|, i requires 0 <= i < |apps| => apps[i].(activityLabel := labels[i], profile := profiles[i]))
  }

  /**
   * `listsEqual`: false when the sizes differ, otherwise an index loop that
   * returns false at the first position whose component name or user handle
   * differs.
   */
  method ListsEqual(list1: seq<App>, list2: seq<App>) returns (r: bool)
    ensures r <==> SameIdentities(list1, list2)
    ensures |list1| != |list2| ==> !r
  {
    if |list1| != |list2| {
      return false;
    }
    for i := 0 to |list1|
      invariant forall k :: 0 <= k < i ==> SameIdentity(list1[k], list2[k])
    {
      if list1[i].component != list2[i].component || list1[i].user != list2[i].user {
        return false;
      }
    }
    return true;
  }

  /** Labels and profile indices never change the outcome of the comparison. */
  lemma {:induction false} CosmeticChangesIgnored(a: seq<App>, labels: seq<string>, profiles: seq<int>, b: seq<App>)
    requires |labels| == |a| && |profiles| == |a|
    ensures SameIdentities(Relabeled(a, labels, profiles), b) <==> SameIdentities(a, b)
  {
    var a' := Relabeled(a, labels, profiles);
    if SameIdentities(a, b) {
      forall i | 0 <= i < |a'| ensures SameIdentity(a'[i], b[i]) {
        assert SameIdentity(a[i], b[i]);
      }
    }
    if SameIdentities(a', b) {
      forall i | 0 <= i < |a| ensures SameIdentity(a[i], b[i]) {
        assert SameIdentity(a'[i], b[i]);
      }
    }
  }

  /** The comparison is an equivalence: a list never differs from itself, and so on. */
  lemma SameIdentitiesIsEquivalence(xs: seq<App>, ys: seq<App>, zs: seq<App>)
    ensures SameIdentities(xs, xs)
    ensures SameIdentities(xs, ys) ==> SameIdentities(ys, xs)
    ensures SameIdentities(xs, ys) && SameIdentities(ys, zs) ==> SameIdentities(xs, zs)
  {
    if SameIdentities(xs, ys) && SameIdentities(ys, zs) {
      forall i | 0 <= i < |xs| ensures SameIdentity(xs[i], zs[i]) {
        assert SameIdentity(xs[i], ys[i]) && SameIdentity(ys[i], zs[i]);
      }
    }
  }
}
