/**
  Selection of a device for a claim: a chain of list filters, some of which stop
  at the first match, shown to find the first device that meets all criteria.
  */
module Selection {
  import opened Objects

  const LEGACY_SCHEME := "legacy"
  const SPARSE := "sparse"
  const TAG_LABEL := "openebs.io/block-device-tag"
  const MODE_BLOCK := "Block"
  const MODE_FILE_SYSTEM := "FileSystem"

  datatype FilterKey =
    | FilterActive | FilterUnclaimed | FilterOutLegacyAnnotation | FilterBlockDeviceTag
    | FilterBlockDeviceName | FilterOutSparse | FilterDeviceType | FilterVolumeMode | FilterNodeName
    | FilterResourceStorage

  /** One pass over the list.  The tag filter makes two passes, every other filter one. */
  datatype Test =
    | IsActive | IsUnclaimed | NotLegacy | TagNotBlank | TagAbsent
    | HasName | NotSparse | HasType | HasMode | OnNode | LargeEnough

  predicate IsSpace(c: char) {
    || c == ' ' || '\t' <= c <= '\r' || c == '\U{85}' || c == '\U{A0}' || c == '\U{1680}'
    || '\U{2000}' <= c <= '\U{200A}' || c == '\U{2028}' || c == '\U{2029}' || c == '\U{202F}' || c == '\U{205F}'
    || c == '\U{3000}'
  }

  predicate Blank(s: string) {
    forall i :: 0 <= i < |s| ==> IsSpace(s[i])
  }

  /** The requested capacity; anything but a positive integer is invalid. */
  function RequestedCapacity(spec: ClaimSpec): Option<nat> {
    if spec.storage.Some? && spec.storage.value > 0 then Some(spec.storage.value) else None
  }

  predicate ModeMatches(spec: ClaimSpec, fs: FileSystem) {
    if spec.volumeMode == MODE_BLOCK then fs.fsType == "" && fs.mountPoint == ""
    else if spec.volumeMode == MODE_FILE_SYSTEM then
      fs.fsType != "" && fs.mountPoint != "" && (spec.deviceFormat == "" || fs.fsType == spec.deviceFormat)
    else true
  }

  predicate Passes(spec: ClaimSpec, t: Test, d: BlockDevice) {
    match t
    case IsActive => d.state == Active
    case IsUnclaimed => d.claimState == Unclaimed
    case NotLegacy => !(UuidScheme in d.annotations && d.annotations[UuidScheme] == LEGACY_SCHEME)
    case TagNotBlank => !(TAG_LABEL in d.labels && Blank(d.labels[TAG_LABEL]))
    case TagAbsent => TAG_LABEL !in d.labels
    case HasName => d.name == spec.blockDeviceName
    case NotSparse => d.spec.details.deviceType != SPARSE
    case HasType => spec.deviceType == "" || d.spec.details.deviceType == spec.deviceType
    case HasMode => spec.volumeMode == "" || ModeMatches(spec, d.spec.fileSystem)
    case OnNode => spec.nodeName == "" || d.spec.nodeName == spec.nodeName
    case LargeEnough => d.spec.capacity.storage >= (var c := RequestedCapacity(spec); if c.Some? then c.value else 0)
  }

  /** Unless the claim's own selector mentions the tag label, tagged devices are left out. */
  predicate TagMustBeAbsent(selector: Option<Selector>) {
    selector.Some? ==>
      && TAG_LABEL !in selector.value.matchLabels
      && forall i :: 0 <= i < |selector.value.matchExpressions| ==> selector.value.matchExpressions[i].key != TAG_LABEL
  }

  predicate ManualSelection(spec: ClaimSpec) {
    spec.blockDeviceName != ""
  }

  /** What a claim asks of a device, whatever the filters do. */
  predicate Eligible(spec: ClaimSpec, d: BlockDevice) {
    && d.state == Active && d.claimState == Unclaimed
    && (UuidScheme in d.annotations ==> d.annotations[UuidScheme] != LEGACY_SCHEME)
    && (TAG_LABEL in d.labels ==>
          MentionsTag(spec.selector) && exists i :: 0 <= i < |d.labels[TAG_LABEL]| && !IsSpace(d.labels[TAG_LABEL][i]))
    && if spec.blockDeviceName != "" then d.name == spec.blockDeviceName
       else
         && (spec.storage.Some? ==> d.spec.capacity.storage >= spec.storage.value)
         && d.spec.details.deviceType != SPARSE
         && (spec.deviceType != "" ==> d.spec.details.deviceType == spec.deviceType)
         && (spec.nodeName != "" ==> d.spec.nodeName == spec.nodeName)
         && (spec.volumeMode == MODE_BLOCK ==> d.spec.fileSystem == FileSystem("", ""))
         && (spec.volumeMode == MODE_FILE_SYSTEM ==>
               && d.spec.fileSystem.fsType != "" && d.spec.fileSystem.mountPoint != ""
               && (spec.deviceFormat != "" ==> d.spec.fileSystem.fsType == spec.deviceFormat))
  }

  /** The selector names the tag label, in whatever way. */
  predicate MentionsTag(selector: Option<Selector>) {
    selector.Some? && (
      || TAG_LABEL in selector.value.matchLabels
      || exists i :: 0 <= i < |selector.value.matchExpressions| && selector.value.matchExpressions[i].key == TAG_LABEL)
  }

  /** The tests together ask just that. */
  lemma TestsMeanEligible(spec: ClaimSpec, d: BlockDevice)
    ensures Eligible(spec, d) <==> (
      && Passes(spec, IsActive, d) && Passes(spec, IsUnclaimed, d) && Passes(spec, NotLegacy, d)
      && Passes(spec, TagNotBlank, d) && (TagMustBeAbsent(spec.selector) ==> Passes(spec, TagAbsent, d))
      && if ManualSelection(spec) then Passes(spec, HasName, d)
         else
           && Passes(spec, NotSparse, d) && Passes(spec, HasType, d) && Passes(spec, HasMode, d)
           && Passes(spec, OnNode, d) && Passes(spec, LargeEnough, d))
  {}

  // --- Filtering -----------------------------------------------------------

  predicate PassesAll(spec: ClaimSpec, tests: seq<Test>, d: BlockDevice) {
    forall i :: 0 <= i < |tests| ==> Passes(spec, tests[i], d)
  }

  /** The devices that pass all tests, in list order. */
  function Filtered(spec: ClaimSpec, tests: seq<Test>, list: seq<Versioned>): seq<Versioned> {
    if list == [] then []
    else
      Filtered(spec, tests, list[..|list| - 1]) + (if PassesAll(spec, tests, list[|list| - 1].d) then [list[|list| - 1]]
        else [])
  }

  function AtMostOne(list: seq<Versioned>): seq<Versioned> {
    if list == [] then [] else [list[0]]
  }

  lemma {:induction false} FilteredTwice(spec: ClaimSpec, tests: seq<Test>, t: Test, list: seq<Versioned>)
    ensures Filtered(spec, [t], Filtered(spec, tests, list)) == Filtered(spec, tests + [t], list)
  {
    hide Passes;
    if list != [] {
      var init, last := list[..|list| - 1], list[|list| - 1];
      FilteredTwice(spec, tests, t, init);
      assert PassesAll(spec, tests + [t], last.d) <==>
        PassesAll(spec, tests, last.d) && PassesAll(spec, [t], last.d) by {
        assert (tests + [t])[|tests|] == t;
        assert forall i :: 0 <= i < |tests| ==> (tests + [t])[i] == tests[i];
      }
      if PassesAll(spec, tests, last.d) {
        var whole := Filtered(spec, tests, init) + [last];
        assert whole[..|whole| - 1] == Filtered(spec, tests, init) && whole[|whole| - 1] == last;
      } else {
        assert Filtered(spec, tests, list) == Filtered(spec, tests, init);
        assert Filtered(spec, tests + [t], list) == Filtered(spec, tests + [t], init);
      }
    }
  }

  /** The first device that passes is the head of the filtered list. */
  lemma {:induction false} FilteredHead(spec: ClaimSpec, tests: seq<Test>, list: seq<Versioned>)
    ensures var f := Filtered(spec, tests, list);
            if f == [] then forall i :: 0 <= i < |list| ==> !PassesAll(spec, tests, list[i].d)
            else exists i :: FirstPassing(spec, tests, list, i) && list[i] == f[0]
  {
    hide PassesAll;
    if list != [] {
      var init, last := list[..|list| - 1], list[|list| - 1];
      FilteredHead(spec, tests, init);
      if Filtered(spec, tests, init) != [] {
        var i :| FirstPassing(spec, tests, init, i) && init[i] == Filtered(spec, tests, init)[0];
        assert FirstPassing(spec, tests, list, i);
      } else if PassesAll(spec, tests, last.d) {
        assert FirstPassing(spec, tests, list, |list| - 1);
      }
    }
  }

  ghost predicate FirstPassing(spec: ClaimSpec, tests: seq<Test>, list: seq<Versioned>, i: int) {
    && 0 <= i < |list| && PassesAll(spec, tests, list[i].d)
    && forall j :: 0 <= j < i ==> !PassesAll(spec, tests, list[j].d)
  }

  /** One pass of a filter over the list; some filters stop at the first match. */
  method Keep(spec: ClaimSpec, t: Test, stop: bool, list: seq<Versioned>) returns (r: seq<Versioned>)
    ensures r == if stop then AtMostOne(Filtered(spec, [t], list)) else Filtered(spec, [t], list)
  {
    r := [];
    for i := 0 to |list|
      invariant r == Filtered(spec, [t], list[..i])
      invariant stop ==> r == []
    {
      assert list[..i + 1][..i] == list[..i];
      assert PassesAll(spec, [t], list[i].d) <==> Passes(spec, [t][0], list[i].d);
      if Passes(spec, t, list[i].d) {
        r := r + [list[i]];
        if stop {
          HeadIsStable(spec, [t], list, i + 1);
          return;
        }
      }
    }
    assert list[..|list|] == list;
  }

  /** Once something passed, the head of the filtered list is settled. */
  lemma {:induction false} HeadIsStable(spec: ClaimSpec, tests: seq<Test>, list: seq<Versioned>, k: nat)
    requires k <= |list| && Filtered(spec, tests, list[..k]) != []
    ensures AtMostOne(Filtered(spec, tests, list)) == AtMostOne(Filtered(spec, tests, list[..k]))
    decreases |list|
  {
    hide PassesAll;
    if k == |list| {
      assert list[..k] == list;
    } else {
      assert list[..|list| - 1][..k] == list[..k];
      HeadIsStable(spec, tests, list[..|list| - 1], k);
    }
  }

  /** The tests behind a filter key, and whether the filter stops at its first match. */
  function TestsOf(spec: ClaimSpec, key: FilterKey): seq<Test> {
    match key
    case FilterActive => [IsActive]
    case FilterUnclaimed => [IsUnclaimed]
    case FilterOutLegacyAnnotation => [NotLegacy]
    case FilterBlockDeviceTag => if TagMustBeAbsent(spec.selector) then [TagNotBlank, TagAbsent] else [TagNotBlank]
    case FilterBlockDeviceName => [HasName]
    case FilterOutSparse => [NotSparse]
    case FilterDeviceType => [HasType]
    case FilterVolumeMode => [HasMode]
    case FilterNodeName => [OnNode]
    case FilterResourceStorage => [LargeEnough]
  }

  predicate Stops(key: FilterKey) {
    key == FilterBlockDeviceName || key == FilterResourceStorage
  }

  /** What one filter makes of a list. */
  function OnePass(spec: ClaimSpec, key: FilterKey, list: seq<Versioned>): seq<Versioned> {
    var f := Filtered(spec, TestsOf(spec, key), list);
    if Stops(key) then AtMostOne(f) else f
  }

  method ApplyFilter(spec: ClaimSpec, key: FilterKey, list: seq<Versioned>) returns (r: seq<Versioned>)
    ensures r == OnePass(spec, key, list)
  {
    var tests := TestsOf(spec, key);
    r := Keep(spec, tests[0], Stops(key), list);
    assert [tests[0]] + tests[1..] == tests;
    if |tests| == 2 {
      FilteredTwice(spec, [tests[0]], tests[1], list);
      r := Keep(spec, tests[1], false, r);
      assert [tests[0]] + [tests[1]] == tests;
    } else {
      assert tests == [tests[0]];
    }
  }

  /** What a chain of filters makes of a list. */
  function Chained(spec: ClaimSpec, keys: seq<FilterKey>, list: seq<Versioned>): seq<Versioned> {
    if keys == [] then list else OnePass(spec, keys[|keys| - 1], Chained(spec, keys[..|keys| - 1], list))
  }

  method ApplyFilters(spec: ClaimSpec, keys: seq<FilterKey>, list: seq<Versioned>) returns (r: seq<Versioned>)
    ensures r == Chained(spec, keys, list)
  {
    r := list;
    for i := 0 to |keys|
      invariant r == Chained(spec, keys[..i], list)
    {
      assert keys[..i + 1][..i] == keys[..i];
      r := ApplyFilter(spec, keys[i], r);
    }
    assert keys[..|keys|] == keys;
  }

  function AllTests(spec: ClaimSpec, keys: seq<FilterKey>): seq<Test> {
    if keys == [] then [] else AllTests(spec, keys[..|keys| - 1]) + TestsOf(spec, keys[|keys| - 1])
  }

  /** Filtering with more tests is filtering the filtered list. */
  lemma {:induction false} FilteredAgain(spec: ClaimSpec, tests: seq<Test>, more: seq<Test>, list: seq<Versioned>)
    ensures Filtered(spec, more, Filtered(spec, tests, list)) == Filtered(spec, tests + more, list)
    decreases |more|
  {
    if more == [] {
      FilteredByNothing(spec, Filtered(spec, tests, list));
      assert tests + more == tests;
    } else {
      var init, last := more[..|more| - 1], more[|more| - 1];
      assert init + [last] == more && tests + init + [last] == tests + more;
      FilteredTwice(spec, init, last, Filtered(spec, tests, list));
      FilteredAgain(spec, tests, init, list);
      FilteredTwice(spec, tests + init, last, list);
    }
  }

  lemma {:induction false} FilteredByNothing(spec: ClaimSpec, list: seq<Versioned>)
    ensures Filtered(spec, [], list) == list
  {
    if list != [] {
      FilteredByNothing(spec, list[..|list| - 1]);
      assert list[..|list| - 1] + [list[|list| - 1]] == list;
    }
  }

  /** A chain of filters of which only the last may stop early keeps what passes all their tests. */
  lemma {:induction false} ChainedIsFiltered(spec: ClaimSpec, keys: seq<FilterKey>, list: seq<Versioned>)
    requires forall i :: 0 <= i < |keys| - 1 ==> !Stops(keys[i])
    ensures var f := Filtered(spec, AllTests(spec, keys), list);
            Chained(spec, keys, list) == if keys != [] && Stops(keys[|keys| - 1]) then AtMostOne(f) else f
  {
    if keys == [] {
      FilteredByNothing(spec, list);
    } else {
      var init := keys[..|keys| - 1];
      ChainedIsFiltered(spec, init, list);
      FilteredAgain(spec, AllTests(spec, init), TestsOf(spec, keys[|keys| - 1]), list);
    }
  }

  // --- Selection -----------------------------------------------------------

  function CandidateKeys(spec: ClaimSpec): seq<FilterKey> {
    [FilterActive, FilterUnclaimed, FilterOutLegacyAnnotation, FilterBlockDeviceTag] +
    if ManualSelection(spec) then [FilterBlockDeviceName]
    else [FilterOutSparse, FilterDeviceType, FilterVolumeMode, FilterNodeName]
  }

  lemma AllTestsTogether(spec: ClaimSpec, keys: seq<FilterKey>, d: BlockDevice)
    ensures PassesAll(spec, AllTests(spec, keys), d) <==>
      forall i :: 0 <= i < |keys| ==> PassesAll(spec, TestsOf(spec, keys[i]), d)
  {
    hide Passes, TestsOf;
    if keys != [] {
      var init, last := keys[..|keys| - 1], keys[|keys| - 1];
      AllTestsTogether(spec, init, d);
      var a, b := AllTests(spec, init), TestsOf(spec, last);
      assert forall i :: 0 <= i < |a| ==> (a + b)[i] == a[i];
      assert forall i :: 0 <= i < |b| ==> (a + b)[|a| + i] == b[i];
      assert forall i :: 0 <= i < |init| ==> keys[i] == init[i];
    }
  }

  /** All tests a device has to pass for a claim. */
  function Criteria(spec: ClaimSpec): seq<Test> {
    AllTests(spec, CandidateKeys(spec)) + if ManualSelection(spec) then [] else [LargeEnough]
  }

  function AllKeys(spec: ClaimSpec): seq<FilterKey> {
    CandidateKeys(spec) + if ManualSelection(spec) then [] else [FilterResourceStorage]
  }

  lemma CriteriaTests(spec: ClaimSpec)
    ensures AllTests(spec, AllKeys(spec)) == Criteria(spec)
  {
    var candidates, keys := CandidateKeys(spec), AllKeys(spec);
    hide CandidateKeys;
    if ManualSelection(spec) {
      assert keys == candidates;
      assert AllTests(spec, candidates) + [] == AllTests(spec, candidates);
    } else {
      assert keys[..|keys| - 1] == candidates && keys[|keys| - 1] == FilterResourceStorage;
    }
  }

  /** The candidate filters and the capacity filter together are the eligibility criteria. */
  lemma CriteriaMeanEligible(spec: ClaimSpec, d: BlockDevice)
    ensures PassesAll(spec, Criteria(spec), d) <==> Eligible(spec, d)
  {
    hide Passes, AllTests, Criteria, Eligible;
    TestsMeanEligible(spec, d);
    var keys := AllKeys(spec);
    CriteriaTests(spec);
    AllTestsTogether(spec, keys, d);
    forall t ensures PassesAll(spec, [t], d) <==> Passes(spec, t, d) {
      assert [t][0] == t;
    }
    assert PassesAll(spec, [TagNotBlank, TagAbsent], d) <==>
      Passes(spec, TagNotBlank, d) && Passes(spec, TagAbsent, d) by {
      assert [TagNotBlank, TagAbsent][0] == TagNotBlank && [TagNotBlank, TagAbsent][1] == TagAbsent;
    }
    assert keys[0] == FilterActive && keys[1] == FilterUnclaimed;
    assert keys[2] == FilterOutLegacyAnnotation && keys[3] == FilterBlockDeviceTag;
    if ManualSelection(spec) {
      assert keys[4] == FilterBlockDeviceName && |keys| == 5;
    } else {
      assert keys[4] == FilterOutSparse && keys[5] == FilterDeviceType;
      assert keys[6] == FilterVolumeMode && keys[7] == FilterNodeName;
      assert keys[8] == FilterResourceStorage && |keys| == 9;
    }
  }

  ghost predicate FirstEligible(spec: ClaimSpec, list: seq<Versioned>, i: int) {
    0 <= i < |list| && Eligible(spec, list[i].d) && forall j :: 0 <= j < i ==> !Eligible(spec, list[j].d)
  }

  lemma HeadIsFirstEligible(spec: ClaimSpec, list: seq<Versioned>)
    ensures var f := Filtered(spec, Criteria(spec), list);
            && (f == [] <==> forall i :: 0 <= i < |list| ==> !Eligible(spec, list[i].d))
            && (f != [] ==> exists i :: FirstEligible(spec, list, i) && list[i] == f[0])
  {
    hide Eligible, PassesAll, Criteria, Filtered;
    FilteredHead(spec, Criteria(spec), list);
    forall i | 0 <= i < |list| ensures PassesAll(spec, Criteria(spec), list[i].d) <==> Eligible(spec, list[i].d) {
      CriteriaMeanEligible(spec, list[i].d);
    }
    if Filtered(spec, Criteria(spec), list) != [] {
      var i :| FirstPassing(spec, Criteria(spec), list, i) && list[i] == Filtered(spec, Criteria(spec), list)[0];
      assert FirstEligible(spec, list, i);
    }
  }

  /** What the two chains of filters make of the list. */
  lemma ChainsFindFirst(spec: ClaimSpec, list: seq<Versioned>)
    ensures var candidates, f := Chained(spec, CandidateKeys(spec), list), Filtered(spec, Criteria(spec), list);
            if ManualSelection(spec) then candidates == AtMostOne(f)
            else Chained(spec, [FilterResourceStorage], candidates) == AtMostOne(f) && (candidates == [] ==> f == [])
  {
    hide PassesAll, Filtered, Chained;
    var tests := AllTests(spec, CandidateKeys(spec));
    ChainedIsFiltered(spec, CandidateKeys(spec), list);
    hide CandidateKeys;
    if ManualSelection(spec) {
      assert Criteria(spec) == tests;
    } else {
      var candidates := Filtered(spec, tests, list);
      FilteredAgain(spec, tests, [LargeEnough], list);
      ChainedIsFiltered(spec, [FilterResourceStorage], candidates);
      assert AllTests(spec, [FilterResourceStorage]) == [LargeEnough];
      if candidates == [] { FilteredNothing(spec, [LargeEnough]); }
    }
  }

  lemma FilteredNothing(spec: ClaimSpec, tests: seq<Test>)
    ensures Filtered(spec, tests, []) == []
  {}

  /** Selection finds the first eligible device in list order, and fails exactly if there is none. */
  method Filter(spec: ClaimSpec, list: seq<Versioned>) returns (r: Option<Versioned>)
    ensures r.None? <==> forall i :: 0 <= i < |list| ==> !Eligible(spec, list[i].d)
    ensures r.Some? ==> exists i :: FirstEligible(spec, list, i) && list[i] == r.value
  {
    hide Eligible, PassesAll, Filtered, Chained, AllTests, CandidateKeys, Criteria;
    if |list| == 0 {
      return None;
    }
    HeadIsFirstEligible(spec, list);
    ChainsFindFirst(spec, list);
    var candidates := ApplyFilters(spec, CandidateKeys(spec), list);
    if |candidates| == 0 {
      return None;
    }
    if ManualSelection(spec) {
      return Some(candidates[0]);
    }
    var selected := ApplyFilters(spec, [FilterResourceStorage], candidates);
    if |selected| == 0 {
      return None;
    }
    return Some(selected[0]);
  }
}
