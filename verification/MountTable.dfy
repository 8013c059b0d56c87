/**
  Mount tables.  A table admits entries through its filters, and an entry belongs to at
  most one table.
  */
module MountTable {
  import opened MountDiff

  /** An entry, with the table it belongs to. */
  class Node {
    const fs: Filesystem
    var tab: MountTab?

    constructor (fs: Filesystem)
      ensures this.fs == fs && tab == null
    {
      this.fs, tab := fs, null;
    }
  }

  datatype AddError = NoError | InvalidArgument | FilesystemBusy | DeniedByFilters

  class MountTab {
    const allowFilters: seq<Filesystem -> bool>
    const denyFilters: seq<Filesystem -> bool>
    var entries: seq<Node>

    /** Every entry is in the table once and knows it. */
    ghost predicate Valid()
      reads this, entries
    {
      && (forall i :: 0 <= i < |entries| ==> entries[i].tab == this)
      && (forall i, j :: 0 <= i < j < |entries| ==> entries[i] != entries[j])
    }

    /** The entries without their owners. */
    function Contents(): Table
      reads this
    {
      seq(|entries|, i requires 0 <= i < |entries| reads this => entries[i].fs)
    }

    constructor (allowFilters: seq<Filesystem -> bool>, denyFilters: seq<Filesystem -> bool>)
      ensures Valid() && entries == [] && this.allowFilters == allowFilters && this.denyFilters == denyFilters
    {
      this.allowFilters, this.denyFilters, entries := allowFilters, denyFilters, [];
    }

    /** Not denied by any filter, and allowed by one if there are any. */
    ghost predicate Admits(fs: Filesystem) {
      && (forall i :: 0 <= i < |denyFilters| ==> !denyFilters[i](fs))
      && (allowFilters == [] || exists i :: 0 <= i < |allowFilters| && allowFilters[i](fs))
    }

    method ApplyFilters(fs: Filesystem) returns (r: bool)
      ensures r == Admits(fs)
    {
      var isAllowed, isDenied := false, false;
      if |allowFilters| == 0 {
        isAllowed := true;
      }
      for i := 0 to |denyFilters|
        invariant isDenied <==> exists j :: 0 <= j < i && denyFilters[j](fs)
      {
        isDenied := isDenied || denyFilters[i](fs);
      }
      for i := 0 to |allowFilters|
        invariant isAllowed <==> allowFilters == [] || exists j :: 0 <= j < i && allowFilters[j](fs)
      {
        isAllowed := isAllowed || allowFilters[i](fs);
      }
      r := !isDenied && isAllowed;
    }

    /** Take over an entry that belongs to no table and passes the filters. */
    method AddFilesystem(node: Node?) returns (r: AddError)
      requires Valid()
      modifies this, node
      ensures Valid()
      ensures r == if node == null then InvalidArgument
                   else if old(node.tab) != null then FilesystemBusy
                   else if !Admits(node.fs) then DeniedByFilters else NoError
      ensures r == NoError ==>
        entries == old(entries) + [node] && node.tab == this && Contents() == old(Contents()) + [node.fs]
      ensures r != NoError ==> entries == old(entries) && (node != null ==> node.tab == old(node.tab))
    {
      if node == null {
        return InvalidArgument;
      }
      if node.tab != null {
        return FilesystemBusy;
      }
      var ok := ApplyFilters(node.fs);
      if !ok {
        return DeniedByFilters;
      }
      entries := entries + [node];
      node.tab := this;
      r := NoError;
    }
  }

  /** Two tables have no entry in common. */
  lemma OneTableEach(a: MountTab, b: MountTab)
    requires a != b && a.Valid() && b.Valid()
    ensures forall n :: n in a.entries ==> n !in b.entries
  {}
}
