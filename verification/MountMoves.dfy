/**
  How many moves a difference between two mount tables has: for each source and id as many
  as there can be, so that no move is reported as an unmount and a mount.
  */
module MountMoves {
  import opened Objects
  import opened MountDiff

  /** How many entries of the table have this source and id. */
  function Tally(tab: Table, source: string, id: int): nat {
    if tab == [] then 0
    else
      var f := tab[|tab| - 1];
      Tally(tab[..|tab| - 1], source, id) + if f.source == source && f.id == id then 1 else 0
  }

  /** How many entries of the difference take this action for this source and id. */
  function Entries(d: Diff, action: Action, source: string, id: int): nat {
    if d == [] then 0
    else
      var e := d[|d| - 1];
      var f := if action == Umount then e.oldFs else e.newFs;
      Entries(d[..|d| - 1], action, source, id) +
        if e.action == action && f.Some? && f.value.source == source && f.value.id == id then 1 else 0
  }

  lemma {:induction false} EntriesMakeSides(d: Diff, source: string, id: int)
    requires AllWellFormed(d)
    ensures Tally(News(d), source, id) == Entries(d, Mount, source, id) + Entries(d, Move, source, id)
    ensures Tally(Olds(d), source, id) == Entries(d, Umount, source, id) + Entries(d, Move, source, id)
  {
    hide News, Olds, Remounts, Tally;
    if d == [] {
      NoSides(source, id);
    } else {
      var rest, e := d[..|d| - 1], d[|d| - 1];
      EntriesMakeSides(rest, source, id);
      assert WellFormed(e);
      LastEntry(d);
      assert News(rest) + [] == News(rest) && Olds(rest) + [] == Olds(rest);
      match e.action
      case Mount => TallyNext(News(rest), e.newFs.value, source, id);
      case Umount => TallyNext(Olds(rest), e.oldFs.value, source, id);
      case Move =>
        TallyNext(News(rest), e.newFs.value, source, id);
        TallyNext(Olds(rest), e.oldFs.value, source, id);
      case Remount =>
    }
  }

  lemma NoSides(source: string, id: int)
    ensures Tally(News([]), source, id) == 0 && Tally(Olds([]), source, id) == 0
  {}

  lemma TallyNext(tab: Table, f: Filesystem, source: string, id: int)
    ensures Tally(tab + [f], source, id) == Tally(tab, source, id) + if f.source == source && f.id == id then 1 else 0
  {
    assert (tab + [f])[..|tab|] == tab;
  }

  /** Taking out one entry. */
  lemma TakenOut(b: Table, i: nat, source: string, id: int)
    requires i < |b|
    ensures var less := b[..i] + b[i + 1..];
            && multiset(less) == multiset(b) - multiset{b[i]}
            && Tally(b, source, id) ==
                 Tally(less, source, id) + if b[i].source == source && b[i].id == id then 1 else 0
  {
    hide Tally;
    assert b == b[..i] + [b[i]] + b[i + 1..];
    TallySum(b[..i] + [b[i]], b[i + 1..], source, id);
    TallySum(b[..i], b[i + 1..], source, id);
    TallyNext(b[..i], b[i], source, id);
  }

  /** The number does not depend on the order. */
  lemma {:induction false} TallyPermuted(a: Table, b: Table, source: string, id: int)
    requires multiset(a) == multiset(b)
    ensures Tally(a, source, id) == Tally(b, source, id)
    decreases |a|
  {
    if a == [] {
      assert |b| == |multiset(b)| == |multiset(a)|;
    } else {
      hide Tally;
      var n := |a| - 1;
      assert a[n] in multiset(b);
      var i :| 0 <= i < |b| && b[i] == a[n];
      TakenOut(a, n, source, id);
      TakenOut(b, i, source, id);
      TallyPermuted(a[..n] + a[n + 1..], b[..i] + b[i + 1..], source, id);
    }
  }

  lemma {:induction false} TallySum(a: Table, b: Table, source: string, id: int)
    ensures Tally(a + b, source, id) == Tally(a, source, id) + Tally(b, source, id)
    decreases |b|
  {
    if b == [] {
      assert a + b == a;
    } else {
      assert (a + b)[..|a + b| - 1] == a + b[..|b| - 1];
      TallySum(a, b[..|b| - 1], source, id);
    }
  }

  lemma {:induction false} EntryOf(d: Diff, action: Action, source: string, id: int) returns (i: nat)
    requires Entries(d, action, source, id) > 0
    ensures i < |d| && d[i].action == action
    ensures var f := if action == Umount then d[i].oldFs else d[i].newFs;
            f.Some? && f.value.source == source && f.value.id == id
    decreases |d|
  {
    var e := d[|d| - 1];
    var f := if action == Umount then e.oldFs else e.newFs;
    if e.action == action && f.Some? && f.value.source == source && f.value.id == id {
      i := |d| - 1;
    } else {
      i := EntryOf(d[..|d| - 1], action, source, id);
    }
  }

  /** What was unmounted and what was mounted never have source and id in common. */
  lemma NoMissedMove(older: Table, newer: Table, d: Diff, i: nat, j: nat)
    requires IsDiff(older, newer, d) && i < |d| && j < |d| && d[i].action == Umount && d[j].action == Mount
    ensures d[i].oldFs.Some? && d[j].newFs.Some?
    ensures d[i].oldFs.value.source != d[j].newFs.value.source || d[i].oldFs.value.id != d[j].newFs.value.id
  {
    assert WellFormed(d[i]) && WellFormed(d[j]) && !Receives(d[j], d[i].oldFs.value);
  }

  /**
    For each source and id there are as many moves as both vanished and new mounts of it
    allow; what is left over is mounted or unmounted.
    */
  lemma AsManyMovesAsPossible(older: Table, newer: Table, d: Diff, source: string, id: int)
    requires IsDiff(older, newer, d)
    ensures var vanished, added := Tally(Missing(older, newer), source, id), Tally(Missing(newer, older), source, id);
            && Entries(d, Move, source, id) == (if vanished <= added then vanished else added)
            && Entries(d, Umount, source, id) == vanished - Entries(d, Move, source, id)
            && Entries(d, Mount, source, id) == added - Entries(d, Move, source, id)
  {
    hide News, Olds, Remounts, Missing, Changed, Tally, Entries;
    EntriesMakeSides(d, source, id);
    TallyPermuted(Olds(d), Missing(older, newer), source, id);
    if Entries(d, Umount, source, id) > 0 && Entries(d, Mount, source, id) > 0 {
      var i := EntryOf(d, Umount, source, id);
      var j := EntryOf(d, Mount, source, id);
      NoMissedMove(older, newer, d, i, j);
      assert false;
    }
  }
}
