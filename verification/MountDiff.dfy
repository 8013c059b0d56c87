/**
  The difference between two mount tables.  New mounts and remounts are found first;
  a vanished mount then turns the entry of a new mount of the same source and id, if
  there is one left, into a move.
  */
module MountDiff {
  import opened Objects

  datatype Filesystem = Filesystem(
    id: int,
    source: string,
    target: string,
    fsType: string,
    vfsOptions: string,
    fsOptions: string)

  /** What identifies a mount. */
  datatype Key = Key(source: string, target: string)

  function KeyOf(f: Filesystem): Key {
    Key(f.source, f.target)
  }

  type Table = seq<Filesystem>

  /** The first entry with this key. */
  function First(tab: Table, k: Key): (r: Option<Filesystem>)
    ensures r.Some? ==> r.value in tab && KeyOf(r.value) == k
    ensures r.None? ==> forall f :: f in tab ==> KeyOf(f) != k
  {
    if tab == [] then None else if KeyOf(tab[0]) == k then Some(tab[0]) else First(tab[1..], k)
  }

  type Filter = Filesystem -> bool

  function SourceFilter(source: string): Filter {
    (f: Filesystem) => f.source == source
  }

  function TargetFilter(target: string): Filter {
    (f: Filesystem) => f.target == target
  }

  predicate PassesAll(filters: seq<Filter>, f: Filesystem) {
    forall i :: 0 <= i < |filters| ==> filters[i](f)
  }

  /** The first entry that passes all filters. */
  function FirstPassing(tab: Table, filters: seq<Filter>): (r: Option<Filesystem>)
    ensures r.Some? ==> exists i :: 0 <= i < |tab| && tab[i] == r.value && PassesAll(filters, tab[i]) &&
                                    forall j :: 0 <= j < i ==> !PassesAll(filters, tab[j])
    ensures r.None? ==> forall i :: 0 <= i < |tab| ==> !PassesAll(filters, tab[i])
  {
    if tab == [] then None else if PassesAll(filters, tab[0]) then Some(tab[0]) else FirstPassing(tab[1..], filters)
  }

  /** Search with any filters; without filters nothing is found. */
  method Find(tab: Table, filters: seq<Filter>) returns (r: Option<Filesystem>)
    ensures r == if filters == [] then None else FirstPassing(tab, filters)
  {
    if |filters| == 0 {
      return None;
    }
    assert tab[0..] == tab;
    for i := 0 to |tab|
      invariant FirstPassing(tab, filters) == FirstPassing(tab[i..], filters)
    {
      assert tab[i..][1..] == tab[i + 1..];
      var res := true;
      for j := 0 to |filters|
        invariant res <==> forall k :: 0 <= k < j ==> filters[k](tab[i])
      {
        res := res && filters[j](tab[i]);
      }
      if res {
        return Some(tab[i]);
      }
    }
    r := None;
  }

  /** Searching by source and target finds the first entry with that key. */
  lemma {:induction false} FindByKey(tab: Table, source: string, target: string)
    ensures FirstPassing(tab, [SourceFilter(source), TargetFilter(target)]) == First(tab, Key(source, target))
  {
    var filters := [SourceFilter(source), TargetFilter(target)];
    if tab != [] {
      FindByKey(tab[1..], source, target);
      assert PassesAll(filters, tab[0]) <==> filters[0](tab[0]) && filters[1](tab[0]);
    }
  }

  predicate SameOptions(f: Filesystem, g: Filesystem) {
    f.vfsOptions == g.vfsOptions && f.fsOptions == g.fsOptions
  }

  // --- What changed between two tables --------------------------------------------------

  /** The entries of `tab` whose key is not in `other`, in order. */
  function Missing(tab: Table, other: Table): (r: Table)
    ensures forall f :: f in r <==> f in tab && First(other, KeyOf(f)).None?
  {
    if tab == [] then []
    else
      var last := tab[|tab| - 1];
      assert tab == tab[..|tab| - 1] + [last];
      Missing(tab[..|tab| - 1], other) + if First(other, KeyOf(last)).None? then [last] else []
  }

  /** The new entries whose options differ from the first old entry with the same key, with that entry. */
  function Changed(older: Table, newer: Table): (r: seq<(Filesystem, Filesystem)>)
    ensures forall f, g :: (f, g) in r <==> g in newer && First(older, KeyOf(g)) == Some(f) && !SameOptions(f, g)
  {
    if newer == [] then []
    else
      var last := newer[|newer| - 1];
      assert newer == newer[..|newer| - 1] + [last];
      var f := First(older, KeyOf(last));
      Changed(older, newer[..|newer| - 1]) + if f.Some? && !SameOptions(f.value, last) then [(f.value, last)] else []
  }

  // --- Differences -------------------------------------------------------------------------

  datatype Action = Mount | Umount | Move | Remount

  datatype Entry = Entry(oldFs: Option<Filesystem>, newFs: Option<Filesystem>, action: Action)

  type Diff = seq<Entry>

  /** An entry has the sides its action needs; a move keeps source and id. */
  predicate WellFormed(e: Entry) {
    match e.action
    case Mount => e.oldFs.None? && e.newFs.Some?
    case Umount => e.oldFs.Some? && e.newFs.None?
    case Move =>
      && e.oldFs.Some? && e.newFs.Some?
      && e.oldFs.value.source == e.newFs.value.source && e.oldFs.value.id == e.newFs.value.id
    case Remount => e.oldFs.Some? && e.newFs.Some?
  }

  predicate AllWellFormed(d: Diff) {
    forall i :: 0 <= i < |d| ==> WellFormed(d[i])
  }

  /** What the entries of a difference add. */
  function News(d: Diff): Table {
    if d == [] then []
    else
      var e := d[|d| - 1];
      News(d[..|d| - 1]) + if (e.action == Mount || e.action == Move) && e.newFs.Some? then [e.newFs.value] else []
  }

  /** What the entries of a difference take away. */
  function Olds(d: Diff): Table {
    if d == [] then []
    else
      var e := d[|d| - 1];
      Olds(d[..|d| - 1]) + if (e.action == Umount || e.action == Move) && e.oldFs.Some? then [e.oldFs.value] else []
  }

  function Remounts(d: Diff): seq<(Filesystem, Filesystem)> {
    if d == [] then []
    else
      var e := d[|d| - 1];
      Remounts(d[..|d| - 1]) + if e.action == Remount && e.oldFs.Some? && e.newFs.Some?
        then [(e.oldFs.value, e.newFs.value)] else []
  }

  /** Could this mount entry be the new place of f? */
  predicate Receives(e: Entry, f: Filesystem) {
    e.action == Mount && e.newFs.Some? && e.newFs.value.id == f.id && e.newFs.value.source == f.source
  }

  /** No unmounted file system could have been a move instead. */
  predicate MovesPreferred(d: Diff) {
    forall i, j :: 0 <= i < |d| && 0 <= j < |d| && d[i].action == Umount && d[i].oldFs.Some? ==>
      !Receives(d[j], d[i].oldFs.value)
  }

  /**
    The difference is exact: its added sides are the new entries, each once and in order;
    its removed sides are the vanished entries, each once; its remounts are the changed
    ones; and it has as many moves as it can.
    */
  predicate IsDiff(older: Table, newer: Table, d: Diff) {
    && AllWellFormed(d)
    && News(d) == Missing(newer, older)
    && multiset(Olds(d)) == multiset(Missing(older, newer))
    && Remounts(d) == Changed(older, newer)
    && MovesPreferred(d)
  }

  // --- Generating the difference --------------------------------------------------------------

  /** Index of the first mount entry that is the new place of f. */
  method GetMountEntry(d: Diff, f: Filesystem) returns (r: Option<nat>)
    ensures r.Some? ==> r.value < |d| && Receives(d[r.value], f) && forall j :: 0 <= j < r.value ==> !Receives(d[j], f)
    ensures r.None? ==> forall j :: 0 <= j < |d| ==> !Receives(d[j], f)
  {
    for i := 0 to |d|
      invariant forall j :: 0 <= j < i ==> !Receives(d[j], f)
    {
      if d[i].action == Mount && d[i].newFs.Some? && d[i].newFs.value.id == f.id &&
         d[i].newFs.value.source == f.source {
        return Some(i);
      }
    }
    r := None;
  }

  method GenerateDiff(older: Table, newer: Table) returns (d: Diff)
    ensures IsDiff(older, newer, d)
  {
    d := [];
    if |newer| == 0 && |older| == 0 {
      return;
    }
    if |older| == 0 {
      d := AllMounts(newer);
      NothingChanged(newer);
      return;
    }
    if |newer| == 0 {
      d := AllUmounts(older);
      return;
    }
    d := NewAndChanged(older, newer);
    d := GoneOrMoved(older, newer, d);
  }

  /** Everything is newly mounted. */
  method AllMounts(newer: Table) returns (d: Diff)
    ensures AllWellFormed(d) && News(d) == Missing(newer, []) && Olds(d) == [] && Remounts(d) == [] && MovesPreferred(d)
  {
    hide News, Olds, Remounts, Missing, WellFormed;
    d := [];
    NothingAdded([]);
    for i := 0 to |newer|
      invariant AllWellFormed(d) && News(d) == Missing(newer[..i], []) && Olds(d) == [] && Remounts(d) == []
      invariant forall j :: 0 <= j < |d| ==> d[j].action == Mount
    {
      MissingNext(newer, [], i);
      SidesPresent(Entry(None, Some(newer[i]), Mount));
      AddEntry(d, Entry(None, Some(newer[i]), Mount));
      d := d + [Entry(None, Some(newer[i]), Mount)];
    }
    assert newer[..|newer|] == newer;
  }

  /** Everything is unmounted. */
  method AllUmounts(older: Table) returns (d: Diff)
    ensures AllWellFormed(d) && News(d) == [] && Olds(d) == Missing(older, []) && Remounts(d) == [] && MovesPreferred(d)
  {
    hide News, Olds, Remounts, Missing, WellFormed;
    d := [];
    NothingAdded([]);
    for i := 0 to |older|
      invariant AllWellFormed(d) && News(d) == [] && Olds(d) == Missing(older[..i], []) && Remounts(d) == []
      invariant forall j :: 0 <= j < |d| ==> d[j].action == Umount
    {
      MissingNext(older, [], i);
      SidesPresent(Entry(Some(older[i]), None, Umount));
      AddEntry(d, Entry(Some(older[i]), None, Umount));
      d := d + [Entry(Some(older[i]), None, Umount)];
    }
    assert older[..|older|] == older;
  }

  /** Newly mounted and remounted entries. */
  method NewAndChanged(older: Table, newer: Table) returns (d: Diff)
    ensures AllWellFormed(d) && News(d) == Missing(newer, older) && Olds(d) == []
    ensures Remounts(d) == Changed(older, newer)
    ensures forall j :: 0 <= j < |d| ==> d[j].action == Mount || d[j].action == Remount
  {
    hide News, Olds, Remounts, Missing, Changed, WellFormed;
    d := [];
    NothingAdded(older);
    for i := 0 to |newer|
      invariant AllWellFormed(d) && News(d) == Missing(newer[..i], older) && Olds(d) == []
      invariant Remounts(d) == Changed(older, newer[..i])
      invariant forall j :: 0 <= j < |d| ==> d[j].action == Mount || d[j].action == Remount
    {
      MissingNext(newer, older, i);
      ChangedNext(older, newer, i);
      var newFs := newer[i];
      FindByKey(older, newFs.source, newFs.target);
      var oldFs := Find(older, [SourceFilter(newFs.source), TargetFilter(newFs.target)]);
      if oldFs.None? {
        SidesPresent(Entry(None, Some(newFs), Mount));
        AddEntry(d, Entry(None, Some(newFs), Mount));
        d := d + [Entry(None, Some(newFs), Mount)];
      } else if oldFs.value.vfsOptions != newFs.vfsOptions || oldFs.value.fsOptions != newFs.fsOptions {
        SidesPresent(Entry(oldFs, Some(newFs), Remount));
        AddEntry(d, Entry(oldFs, Some(newFs), Remount));
        d := d + [Entry(oldFs, Some(newFs), Remount)];
      }
    }
    assert newer[..|newer|] == newer;
  }

  /** Unmounted and moved entries; a moved one changes its mount entry in place. */
  method GoneOrMoved(older: Table, newer: Table, start: Diff) returns (d: Diff)
    requires AllWellFormed(start) && Olds(start) == []
    requires forall j :: 0 <= j < |start| ==> start[j].action == Mount || start[j].action == Remount
    ensures AllWellFormed(d) && News(d) == News(start) && Remounts(d) == Remounts(start)
    ensures multiset(Olds(d)) == multiset(Missing(older, newer)) && MovesPreferred(d)
  {
    d := start;
    for i := 0 to |older|
      invariant AllWellFormed(d) && News(d) == News(start) && Remounts(d) == Remounts(start)
      invariant multiset(Olds(d)) == multiset(Missing(older[..i], newer)) && MovesPreferred(d)
    {
      hide WellFormed;
      assert older[..i + 1][..i] == older[..i];
      var oldFs := older[i];
      FindByKey(newer, oldFs.source, oldFs.target);
      var newFs := Find(newer, [SourceFilter(oldFs.source), TargetFilter(oldFs.target)]);
      if newFs.None? {
        var de := GetMountEntry(d, oldFs);
        if de.None? {
          AddEntry(d, Entry(Some(oldFs), None, Umount));
          UmountKeepsPreference(d, oldFs);
          d := d + [Entry(Some(oldFs), None, Umount)];
        } else {
          MoveEntry(d, de.value, oldFs);
          d := d[de.value := Entry(Some(oldFs), d[de.value].newFs, Move)];
        }
      }
    }
    assert older[..|older|] == older;
  }

  // --- Facts about the steps --------------------------------------------------------------------

  lemma NothingChanged(newer: Table)
    ensures Changed([], newer) == []
  {
    if newer != [] { NothingChanged(newer[..|newer| - 1]); }
  }

  lemma NothingAdded(other: Table)
    ensures News([]) == [] && Olds([]) == [] && Remounts([]) == [] && Missing([], other) == []
    ensures Changed(other, []) == []
  {}

  lemma MissingNext(tab: Table, other: Table, i: nat)
    requires i < |tab|
    ensures Missing(tab[..i + 1], other) == Missing(tab[..i], other) + if First(other, KeyOf(tab[i])).None?
      then [tab[i]] else []
  {
    assert tab[..i + 1][..i] == tab[..i];
  }

  lemma ChangedNext(older: Table, newer: Table, i: nat)
    requires i < |newer|
    ensures Changed(older, newer[..i + 1]) == Changed(older, newer[..i]) +
      var f := First(older, KeyOf(newer[i])); if f.Some? && !SameOptions(f.value, newer[i]) then [(f.value, newer[i])]
        else []
  {
    assert newer[..i + 1][..i] == newer[..i];
  }

  lemma SidesPresent(e: Entry)
    requires e.action == Mount ==> e.oldFs.None? && e.newFs.Some?
    requires e.action == Umount ==> e.oldFs.Some? && e.newFs.None?
    requires e.action == Remount ==> e.oldFs.Some? && e.newFs.Some?
    ensures e.action != Move ==> WellFormed(e)
  {}

  lemma AddEntry(d: Diff, e: Entry)
    requires AllWellFormed(d) && WellFormed(e)
    ensures AllWellFormed(d + [e])
    ensures News(d + [e]) == News(d) + if e.action == Mount || e.action == Move then [e.newFs.value] else []
    ensures Olds(d + [e]) == Olds(d) + if e.action == Umount || e.action == Move then [e.oldFs.value] else []
    ensures Remounts(d + [e]) == Remounts(d) + if e.action == Remount then [(e.oldFs.value, e.newFs.value)] else []
  {
    assert (d + [e])[..|d|] == d;
  }

  lemma UmountKeepsPreference(d: Diff, f: Filesystem)
    requires MovesPreferred(d) && forall j :: 0 <= j < |d| ==> !Receives(d[j], f)
    ensures MovesPreferred(d + [Entry(Some(f), None, Umount)])
  {}

  /** Turning a mount entry into a move adds exactly its old side. */
  lemma {:induction false} MoveEntry(d: Diff, k: nat, f: Filesystem)
    requires AllWellFormed(d) && k < |d| && Receives(d[k], f)
    ensures var e := d[k := Entry(Some(f), d[k].newFs, Move)];
            && AllWellFormed(e) && News(e) == News(d) && Remounts(e) == Remounts(d)
            && multiset(Olds(e)) == multiset(Olds(d)) + multiset{f}
            && (MovesPreferred(d) ==> MovesPreferred(e))
    decreases |d|
  {
    hide News, Olds, Remounts, MovesPreferred;
    var n := |d| - 1;
    var moved := Entry(Some(f), d[k].newFs, Move);
    var e := d[k := moved];
    LastEntry(d);
    LastEntry(e);
    if k == n {
      assert e[..n] == d[..n];
    } else {
      MoveEntry(d[..n], k, f);
      assert e[..n] == d[..n][k := moved];
    }
    MovePreferred(d, k, f);
  }

  lemma LastEntry(d: Diff)
    requires d != []
    ensures var rest, e := d[..|d| - 1], d[|d| - 1];
            && News(d) == News(rest) + (if (e.action == Mount || e.action == Move) && e.newFs.Some? then [e.newFs.value]
              else [])
            && Olds(d) == Olds(rest) + (if (e.action == Umount || e.action == Move) && e.oldFs.Some?
              then [e.oldFs.value] else [])
            && Remounts(d) == Remounts(rest) +
                 (if e.action == Remount && e.oldFs.Some? && e.newFs.Some? then [(e.oldFs.value, e.newFs.value)]
                   else [])
  {}

  lemma MovePreferred(d: Diff, k: nat, f: Filesystem)
    requires k < |d|
    ensures MovesPreferred(d) ==> MovesPreferred(d[k := Entry(Some(f), d[k].newFs, Move)])
  {}

  // --- What an exact difference means -------------------------------------------------------------

  function Keys(tab: Table): (r: set<Key>)
    ensures forall k :: k in r <==> First(tab, k).Some?
  {
    set f | f in tab :: KeyOf(f)
  }

  /** Removing the old keys and adding the new keys of the difference turns one key set into the other. */
  lemma KeysPatched(older: Table, newer: Table, d: Diff)
    requires IsDiff(older, newer, d)
    ensures Keys(older) - Keys(Olds(d)) + Keys(News(d)) == Keys(newer)
    ensures Keys(Olds(d)) == Keys(older) - Keys(newer) && Keys(News(d)) == Keys(newer) - Keys(older)
  {
    hide AllWellFormed, News, Olds, Remounts, Missing, Changed, MovesPreferred, First, Keys;
    SameKeys(Olds(d), Missing(older, newer));
    KeysOfMissing(older, newer);
    KeysOfMissing(newer, older);
  }

  lemma SameKeys(a: Table, b: Table)
    requires multiset(a) == multiset(b)
    ensures Keys(a) == Keys(b)
  {
    SameMembers(a, b);
  }

  lemma SameMembers(a: Table, b: Table)
    requires multiset(a) == multiset(b)
    ensures forall f :: f in a <==> f in b
  {
    forall f ensures f in a <==> f in b {
      assert f in a <==> f in multiset(a);
      assert f in b <==> f in multiset(b);
    }
  }

  lemma KeysOfMissing(tab: Table, other: Table)
    ensures Keys(Missing(tab, other)) == Keys(tab) - Keys(other)
  {
    forall k | k in Keys(tab) - Keys(other) ensures k in Keys(Missing(tab, other)) {
      var f := First(tab, k).value;
      assert f in Missing(tab, other);
    }
  }

  /** Each side of an entry is where its action says it is. */
  lemma {:induction false} SidesOf(d: Diff, i: nat)
    requires i < |d| && WellFormed(d[i])
    ensures d[i].action == Mount || d[i].action == Move ==> d[i].newFs.value in News(d)
    ensures d[i].action == Umount || d[i].action == Move ==> d[i].oldFs.value in Olds(d)
    ensures d[i].action == Remount ==> (d[i].oldFs.value, d[i].newFs.value) in Remounts(d)
    decreases |d|
  {
    if i < |d| - 1 { SidesOf(d[..|d| - 1], i); }
  }

  /** A move goes from a vanished key to a new key of the same source. */
  lemma MovesPairKeys(older: Table, newer: Table, d: Diff, i: nat)
    requires IsDiff(older, newer, d) && i < |d| && d[i].action == Move
    ensures var f, g := d[i].oldFs.value, d[i].newFs.value;
            && f in older && KeyOf(f) !in Keys(newer) && g in newer && KeyOf(g) !in Keys(older)
            && f.source == g.source && f.target != g.target
  {
    assert WellFormed(d[i]);
    SidesOf(d, i);
    SameMembers(Olds(d), Missing(older, newer));
  }

  /** How many entries of the difference bring, or take away, this file system. */
  function Count(tab: Table, f: Filesystem): nat {
    multiset(tab)[f]
  }

  /**
    Every new file system is brought by exactly as many entries as the table has copies of
    it; likewise for vanished ones.
    */
  lemma EachOnce(older: Table, newer: Table, d: Diff, f: Filesystem)
    requires IsDiff(older, newer, d)
    ensures Count(News(d), f) == if KeyOf(f) in Keys(older) then 0 else Count(newer, f)
    ensures Count(Olds(d), f) == if KeyOf(f) in Keys(newer) then 0 else Count(older, f)
  {
    MissingCounts(newer, older, f);
    MissingCounts(older, newer, f);
  }

  lemma {:induction false} MissingCounts(tab: Table, other: Table, f: Filesystem)
    ensures Count(Missing(tab, other), f) == if KeyOf(f) in Keys(other) then 0 else Count(tab, f)
  {
    if tab != [] {
      var rest, last := tab[..|tab| - 1], tab[|tab| - 1];
      MissingCounts(rest, other, f);
      assert tab == rest + [last];
    }
  }

  // --- Patching ----------------------------------------------------------------------------------

  datatype Options = Options(vfs: string, fs: string)

  function OptionsOf(f: Filesystem): Options {
    Options(f.vfsOptions, f.fsOptions)
  }

  /** The mounts a table shows: for each key the options of its first entry. */
  function View(tab: Table): map<Key, Options> {
    map k | k in Keys(tab) :: OptionsOf(First(tab, k).value)
  }

  /** The difference applied to a view. */
  function Patch(v: map<Key, Options>, d: Diff): map<Key, Options> {
    var kept := v - Keys(Olds(d));
    map k | k in kept.Keys + Keys(News(d)) ::
      if k in Keys(News(d)) then OptionsOf(First(News(d), k).value) else Remounted(Remounts(d), k, kept[k])
  }

  /** The options of a key after the remounts. */
  function Remounted(rs: seq<(Filesystem, Filesystem)>, k: Key, was: Options): Options {
    if rs == [] then was
    else if KeyOf(rs[|rs| - 1].1) == k then OptionsOf(rs[|rs| - 1].1)
    else Remounted(rs[..|rs| - 1], k, was)
  }

  /** The options of the last entry for this key that differ from `was`. */
  function LastDiffering(tab: Table, k: Key, was: Options): (r: Option<Options>)
    ensures r.None? ==> forall f :: f in tab && KeyOf(f) == k ==> OptionsOf(f) == was
    ensures r.Some? ==> exists f :: f in tab && KeyOf(f) == k && OptionsOf(f) == r.value
  {
    if tab == [] then None
    else
      var last := tab[|tab| - 1];
      assert tab == tab[..|tab| - 1] + [last];
      if KeyOf(last) == k && OptionsOf(last) != was then Some(OptionsOf(last))
        else LastDiffering(tab[..|tab| - 1], k, was)
  }

  /** The last new entry for this mount that shows other options than before shows those of the first. */
  predicate SettledAt(older: Table, newer: Table, k: Key)
    requires k in Keys(newer)
  {
    k in Keys(older) ==>
      var o := LastDiffering(newer, k, OptionsOf(First(older, k).value));
      o.Some? ==> o.value == OptionsOf(First(newer, k).value)
  }

  predicate Settled(older: Table, newer: Table) {
    forall k :: k in Keys(newer) ==> SettledAt(older, newer, k)
  }

  /** Patching the old view with the difference gives the new view if and only if the new table is settled. */
  lemma PatchGivesNewIff(older: Table, newer: Table, d: Diff)
    requires IsDiff(older, newer, d)
    ensures Patch(View(older), d) == View(newer) <==> Settled(older, newer)
  {
    hide IsDiff, News, Olds, Remounts, Missing, Changed, First, Keys, Remounted, LastDiffering;
    KeysPatched(older, newer, d);
    var p := Patch(View(older), d);
    assert p.Keys == View(newer).Keys;
    forall k | k in p ensures p[k] == View(newer)[k] <==> SettledAt(older, newer, k) {
      PatchedAt(older, newer, d, k);
    }
    if p == View(newer) {
      forall k | k in Keys(newer) ensures SettledAt(older, newer, k) {
        assert p[k] == View(newer)[k];
      }
    }
  }

  lemma PatchedAt(older: Table, newer: Table, d: Diff, k: Key)
    requires IsDiff(older, newer, d) && k in Keys(newer)
    ensures if k in Keys(News(d))
      then k !in Keys(older) && OptionsOf(First(News(d), k).value) == OptionsOf(First(newer, k).value)
            else (
              && k in Keys(older)
              && var was := OptionsOf(First(older, k).value);
                 Remounted(Remounts(d), k, was) == OptionsOf(First(newer, k).value) <==> SettledAt(older, newer, k))
  {
    hide AllWellFormed, News, Olds, Remounts, MovesPreferred, Remounted, Changed, Missing;
    KeysPatched(older, newer, d);
    if k in Keys(News(d)) {
      FirstOfMissing(newer, older, k);
    } else {
      RemountedIsLast(older, newer, k);
    }
  }

  lemma {:induction false} FirstOfMissing(tab: Table, other: Table, k: Key)
    requires First(other, k).None?
    ensures First(Missing(tab, other), k) == First(tab, k)
  {
    if tab != [] {
      var rest, last := tab[..|tab| - 1], tab[|tab| - 1];
      FirstOfMissing(rest, other, k);
      assert tab == rest + [last];
      FirstOfConcat(rest, [last], k);
      FirstOfConcat(Missing(rest, other), if First(other, KeyOf(last)).None? then [last] else [], k);
    }
  }

  lemma {:induction false} FirstOfConcat(a: Table, b: Table, k: Key)
    ensures First(a + b, k) == if First(a, k).Some? then First(a, k) else First(b, k)
  {
    if a == [] {
      assert a + b == b;
    } else {
      FirstOfConcat(a[1..], b, k);
      assert (a + b)[1..] == a[1..] + b;
    }
  }

  /** The remounts of a key end at the last entry that differs. */
  lemma {:induction false} RemountedIsLast(older: Table, newer: Table, k: Key)
    requires First(older, k).Some?
    ensures var was := OptionsOf(First(older, k).value);
            Remounted(Changed(older, newer), k, was) ==
              match LastDiffering(newer, k, was) case Some(o) => o case None => was
  {
    if newer != [] {
      var rest, last := newer[..|newer| - 1], newer[|newer| - 1];
      RemountedIsLast(older, rest, k);
      var rs, f := Changed(older, rest), First(older, KeyOf(last));
      if f.Some? && !SameOptions(f.value, last) {
        assert (rs + [(f.value, last)])[..|rs|] == rs;
      } else {
        assert Changed(older, newer) == rs;
      }
    }
  }

  /** A table that mentions no mount twice is settled. */
  lemma DistinctIsSettled(older: Table, newer: Table)
    requires forall f, g :: f in newer && g in newer && KeyOf(f) == KeyOf(g) ==> f == g
    ensures Settled(older, newer)
  {
    forall k | k in Keys(newer) ensures SettledAt(older, newer, k) {
      assert First(newer, k).value in newer;
    }
  }

  // --- Affected sources ----------------------------------------------------------------------------

  /** The order of sort.Strings. */
  predicate Less(a: string, b: string) {
    if b == "" then false
    else if a == "" then true
    else a[0] < b[0] || (a[0] == b[0] && Less(a[1..], b[1..]))
  }

  /** They agree before k, and there a ends or has the smaller letter. */
  predicate BeforeAt(a: string, b: string, k: nat) {
    k <= |a| && k < |b| && a[..k] == b[..k] && (k < |a| ==> a[k] < b[k])
  }

  /** The order is that of the first letter in which two strings differ; a string comes after its beginnings. */
  lemma {:induction false} LessMeans(a: string, b: string)
    ensures Less(a, b) <==> exists k: nat :: BeforeAt(a, b, k)
  {
    if a != "" && b != "" && a[0] == b[0] {
      LessMeans(a[1..], b[1..]);
      if Less(a, b) {
        var k: nat :| BeforeAt(a[1..], b[1..], k);
        assert a[..k + 1] == [a[0]] + a[1..][..k] && b[..k + 1] == [b[0]] + b[1..][..k];
        assert BeforeAt(a, b, k + 1);
      }
      if k: nat :| BeforeAt(a, b, k) {
        assert k > 0 && a[1..][..k - 1] == a[..k][1..] && b[1..][..k - 1] == b[..k][1..];
        assert BeforeAt(a[1..], b[1..], k - 1);
      }
    } else if a == "" && b != "" {
      assert BeforeAt(a, b, 0);
    } else if b != "" {
      assert BeforeAt(a, b, 0) <==> a[0] < b[0];
      assert forall k :: 0 < k <= |a| ==> a[..k][0] == a[0];
      assert forall k :: 0 < k <= |b| ==> b[..k][0] == b[0];
    }
  }

  lemma {:induction false} LessTotal(a: string, b: string)
    ensures a == b || Less(a, b) || Less(b, a)
  {
    if a != "" && b != "" && a[0] == b[0] {
      LessTotal(a[1..], b[1..]);
      assert a == [a[0]] + a[1..] && b == [b[0]] + b[1..];
    }
  }

  lemma {:induction false} LessTransitive(a: string, b: string, c: string)
    requires Less(a, b) && Less(b, c)
    ensures Less(a, c)
  {
    if a != "" && a[0] == b[0] == c[0] { LessTransitive(a[1..], b[1..], c[1..]); }
  }

  predicate StrictlySorted(xs: seq<string>) {
    forall i, j :: 0 <= i < j < |xs| ==> Less(xs[i], xs[j])
  }

  function SourceOf(e: Entry): string
    requires WellFormed(e)
  {
    if e.action == Umount then e.oldFs.value.source else e.newFs.value.source
  }

  /** The sources of all entries, sorted, each once. */
  method ListSources(d: Diff) returns (r: seq<string>)
    requires AllWellFormed(d)
    ensures StrictlySorted(r)
    ensures forall s :: s in r <==> exists i :: 0 <= i < |d| && SourceOf(d[i]) == s
  {
    var unique: set<string> := {};
    for i := 0 to |d|
      invariant forall s :: s in unique <==> exists j :: 0 <= j < i && SourceOf(d[j]) == s
    {
      var src;
      if d[i].action == Umount {
        src := d[i].oldFs.value.source;
      } else {
        src := d[i].newFs.value.source;
      }
      unique := unique + {src};
    }
    ghost var all := unique;
    r := [];
    while unique != {}
      invariant unique <= all && StrictlySorted(r)
      invariant forall s :: s in r <==> s in all && s !in unique
    {
      var src :| src in unique;
      unique := unique - {src};
      r := Insert(r, src);
    }
  }

  method Insert(xs: seq<string>, x: string) returns (r: seq<string>)
    requires StrictlySorted(xs) && x !in xs
    ensures StrictlySorted(r) && forall s :: s in r <==> s == x || s in xs
  {
    var i := 0;
    while i < |xs| && Less(xs[i], x)
      invariant 0 <= i <= |xs| && forall j :: 0 <= j < i ==> Less(xs[j], x)
    {
      i := i + 1;
    }
    forall j | i <= j < |xs| ensures Less(x, xs[j]) {
      LessTotal(xs[i], x);
      if i < j { LessTransitive(x, xs[i], xs[j]); }
    }
    r := xs[..i] + [x] + xs[i..];
    assert forall s :: s in xs <==> s in xs[..i] || s in xs[i..] by {
      assert xs == xs[..i] + xs[i..];
    }
  }

  /** Is the source mounted at different places, or some place with different options? */
  predicate Affected(older: Table, newer: Table, source: string) {
    || (exists k :: k in Keys(older) + Keys(newer) && k.source == source && !(k in Keys(older) && k in Keys(newer)))
    || (exists g :: g in newer && g.source == source &&
                    First(older, KeyOf(g)).Some? && !SameOptions(First(older, KeyOf(g)).value, g))
  }

  /**
    The sources of an exact difference are exactly the affected ones; a move loses nothing,
    since both its sides have one source.
    */
  lemma SourcesAreAffected(older: Table, newer: Table, d: Diff, source: string)
    requires IsDiff(older, newer, d)
    ensures (exists i :: 0 <= i < |d| && SourceOf(d[i]) == source) <==> Affected(older, newer, source)
  {
    if i :| 0 <= i < |d| && SourceOf(d[i]) == source {
      EntryAffects(older, newer, d, i);
    }
    if Affected(older, newer, source) {
      AffectedListed(older, newer, d, source);
    }
  }

  lemma EntryAffects(older: Table, newer: Table, d: Diff, i: nat)
    requires IsDiff(older, newer, d) && i < |d|
    ensures WellFormed(d[i]) && Affected(older, newer, SourceOf(d[i]))
  {
    SidesOf(d, i);
    SameMembers(Olds(d), Missing(older, newer));
    var e := d[i];
    match e.action
    case Umount => assert KeyOf(e.oldFs.value) in Keys(older) && KeyOf(e.oldFs.value) !in Keys(newer);
    case Remount => assert (e.oldFs.value, e.newFs.value) in Changed(older, newer);
    case _ => assert KeyOf(e.newFs.value) in Keys(newer) && KeyOf(e.newFs.value) !in Keys(older);
  }

  lemma AffectedListed(older: Table, newer: Table, d: Diff, source: string)
    requires IsDiff(older, newer, d) && Affected(older, newer, source)
    ensures exists i :: 0 <= i < |d| && SourceOf(d[i]) == source
  {
    SameMembers(Olds(d), Missing(older, newer));
    if k :| k in Keys(older) + Keys(newer) && k.source == source && !(k in Keys(older) && k in Keys(newer)) {
      if k in Keys(older) {
        var f := First(older, k).value;
        assert f in Olds(d);
        var i := OldListed(d, f);
      } else {
        var g := First(newer, k).value;
        assert g in News(d);
        var i := NewListed(d, g);
      }
    } else {
      var g :| g in newer && g.source == source &&
               First(older, KeyOf(g)).Some? && !SameOptions(First(older, KeyOf(g)).value, g);
      var f := First(older, KeyOf(g)).value;
      assert (f, g) in Remounts(d);
      var i := RemountListed(d, f, g);
    }
  }

  lemma {:induction false} OldListed(d: Diff, f: Filesystem) returns (i: nat)
    requires AllWellFormed(d) && f in Olds(d)
    ensures i < |d| && SourceOf(d[i]) == f.source
    decreases |d|
  {
    var e := d[|d| - 1];
    if (e.action == Umount || e.action == Move) && e.oldFs == Some(f) {
      i := |d| - 1;
    } else {
      i := OldListed(d[..|d| - 1], f);
    }
  }

  lemma {:induction false} NewListed(d: Diff, g: Filesystem) returns (i: nat)
    requires AllWellFormed(d) && g in News(d)
    ensures i < |d| && SourceOf(d[i]) == g.source
    decreases |d|
  {
    var e := d[|d| - 1];
    if (e.action == Mount || e.action == Move) && e.newFs == Some(g) {
      i := |d| - 1;
    } else {
      i := NewListed(d[..|d| - 1], g);
    }
  }

  lemma {:induction false} RemountListed(d: Diff, f: Filesystem, g: Filesystem) returns (i: nat)
    requires AllWellFormed(d) && (f, g) in Remounts(d)
    ensures i < |d| && SourceOf(d[i]) == g.source
    decreases |d|
  {
    var e := d[|d| - 1];
    if e.action == Remount && e.newFs == Some(g) {
      i := |d| - 1;
    } else {
      i := RemountListed(d[..|d| - 1], f, g);
    }
  }
}
