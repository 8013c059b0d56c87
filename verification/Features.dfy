/**
  Feature gates.  Flags are set from the command line and then validated: a feature
  stays on only if everything it depends on is on.
  */
module Features {
  import opened Objects
  import opened Text

  type Feature = string
  type Dependencies = map<Feature, seq<Feature>>

  function DependsOn(deps: Dependencies, f: Feature): seq<Feature> {
    if f in deps then deps[f] else []
  }

  /** The dependencies have no cycle: every feature ranks above what it depends on. */
  ghost predicate Ranked(deps: Dependencies, rank: Feature -> nat) {
    forall f, g :: g in DependsOn(deps, f) ==> rank(g) < rank(f)
  }

  // --- What validation should compute --------------------------------------------------

  ghost predicate Closed(deps: Dependencies, on: set<Feature>) {
    forall f, g :: f in on && g in DependsOn(deps, f) ==> g in on
  }

  /** Is f requested, and everything it depends on, and so on? */
  ghost predicate Met(deps: Dependencies, rank: Feature -> nat, wanted: set<Feature>, f: Feature)
    requires Ranked(deps, rank)
    decreases rank(f)
  {
    f in wanted && forall g :: g in DependsOn(deps, f) ==> rank(g) < rank(f) && Met(deps, rank, wanted, g)
  }

  /** The requested features whose dependencies are met. */
  ghost function Granted(deps: Dependencies, rank: Feature -> nat, wanted: set<Feature>): set<Feature>
    requires Ranked(deps, rank)
  {
    set f | f in wanted && Met(deps, rank, wanted, f)
  }

  /** They are the largest closed subset of the requested features. */
  lemma GrantedIsGreatest(deps: Dependencies, rank: Feature -> nat, wanted: set<Feature>, other: set<Feature>)
    requires Ranked(deps, rank)
    ensures Granted(deps, rank, wanted) <= wanted && Closed(deps, Granted(deps, rank, wanted))
    ensures other <= wanted && Closed(deps, other) ==> other <= Granted(deps, rank, wanted)
  {
    forall f, g | Met(deps, rank, wanted, f) && g in DependsOn(deps, f)
      ensures g in wanted && Met(deps, rank, wanted, g)
    {
      assert Met(deps, rank, wanted, g);
    }
    if other <= wanted && Closed(deps, other) {
      forall f | f in other ensures Met(deps, rank, wanted, f) {
        ClosedIsMet(deps, rank, wanted, other, f);
      }
    }
  }

  lemma {:induction false} ClosedIsMet(deps: Dependencies, rank: Feature -> nat, wanted: set<Feature>,
                                       other: set<Feature>, f: Feature)
    requires Ranked(deps, rank) && other <= wanted && Closed(deps, other) && f in other
    ensures Met(deps, rank, wanted, f)
    decreases rank(f)
  {
    forall g | g in DependsOn(deps, f) ensures Met(deps, rank, wanted, g) {
      ClosedIsMet(deps, rank, wanted, other, g);
    }
  }

  // --- Flags ---------------------------------------------------------------------------------

  /** Flags by feature; a feature without a flag is off. */
  class FeatureFlag {
    var flags: map<Feature, bool>

    constructor (flags: map<Feature, bool>)
      ensures this.flags == flags
    {
      this.flags := flags;
    }

    predicate IsEnabled(f: Feature)
      reads this
    {
      On(flags, f)
    }
  }

  predicate On(flags: map<Feature, bool>, f: Feature) {
    f in flags && flags[f]
  }

  function Enabled(flags: map<Feature, bool>): set<Feature> {
    set f | f in flags && flags[f]
  }

  /** Validation in progress: only unmet features were switched off, and what is memoized is final. */
  ghost predicate Underway(deps: Dependencies, rank: Feature -> nat, wanted: set<Feature>, flags: map<Feature, bool>,
                           memo: map<Feature, bool>)
    requires Ranked(deps, rank)
  {
    && (forall f :: On(flags, f) ==> f in wanted)
    && (forall f :: f in wanted && !On(flags, f) ==> !Met(deps, rank, wanted, f))
    && (forall f :: f in memo ==> memo[f] == Met(deps, rank, wanted, f) && On(flags, f) == memo[f])
  }

  ghost predicate OnlySwitchedOff(before: map<Feature, bool>, after: map<Feature, bool>) {
    after.Keys == before.Keys && forall f :: On(after, f) ==> On(before, f)
  }

  /** Switch the feature off if a dependency is off after validation; the answer is its final state. */
  method ValidateDependencies(deps: Dependencies, feature: Feature, flags: FeatureFlag, memo: FeatureFlag,
                              ghost rank: Feature -> nat, ghost wanted: set<Feature>) returns (on: bool)
    requires Ranked(deps, rank) && flags != memo && Underway(deps, rank, wanted, flags.flags, memo.flags)
    modifies flags, memo
    ensures Underway(deps, rank, wanted, flags.flags, memo.flags) && OnlySwitchedOff(old(flags.flags), flags.flags)
    ensures on == Met(deps, rank, wanted, feature) && flags.IsEnabled(feature) == on
    decreases rank(feature)
  {
    if feature in memo.flags {
      return memo.flags[feature];
    }
    if !flags.IsEnabled(feature) {
      return false;
    }
    hide Met, Underway, OnlySwitchedOff, Ranked;
    var dependencies := DependsOn(deps, feature);
    var missing := false;
    OnSoFar(deps, rank, wanted, flags.flags, memo.flags, feature);
    for i := 0 to |dependencies|
      invariant !missing && Underway(deps, rank, wanted, flags.flags, memo.flags)
      invariant OnlySwitchedOff(old(flags.flags), flags.flags)
      invariant forall j :: 0 <= j < i ==> Met(deps, rank, wanted, dependencies[j])
    {
      DependencyRanksBelow(deps, rank, feature, i);
      ghost var before := flags.flags;
      var met := ValidateDependencies(deps, dependencies[i], flags, memo, rank, wanted);
      SwitchedOffTogether(old(flags.flags), before, flags.flags);
      if !met {
        UnmetDependency(deps, rank, wanted, feature, dependencies[i]);
        SwitchOff(deps, rank, wanted, old(flags.flags), flags.flags, memo.flags, feature);
        flags.flags := flags.flags[feature := false];
        missing := true;
        break;
      }
    }
    Final(deps, rank, wanted, flags.flags, memo.flags, feature, missing);
    on := flags.IsEnabled(feature);
    memo.flags := memo.flags[feature := on];
  }

  lemma OnSoFar(deps: Dependencies, rank: Feature -> nat, wanted: set<Feature>, flags: map<Feature, bool>,
                memo: map<Feature, bool>, f: Feature)
    requires Ranked(deps, rank) && Underway(deps, rank, wanted, flags, memo) && On(flags, f)
    ensures f in wanted && OnlySwitchedOff(flags, flags)
  {}

  lemma DependencyRanksBelow(deps: Dependencies, rank: Feature -> nat, f: Feature, i: nat)
    requires Ranked(deps, rank) && i < |DependsOn(deps, f)|
    ensures rank(DependsOn(deps, f)[i]) < rank(f)
  {}

  lemma SwitchedOffTogether(a: map<Feature, bool>, b: map<Feature, bool>, c: map<Feature, bool>)
    requires OnlySwitchedOff(a, b) && OnlySwitchedOff(b, c)
    ensures OnlySwitchedOff(a, c)
  {}

  /** When all dependencies were met, or one was not and the feature is off, its state is final and may be memoized. */
  lemma Final(deps: Dependencies, rank: Feature -> nat, wanted: set<Feature>,
              flags: map<Feature, bool>, memo: map<Feature, bool>, f: Feature, missing: bool)
    requires Ranked(deps, rank) && Underway(deps, rank, wanted, flags, memo) && f in wanted
    requires if missing then !On(flags, f) else forall j :: 0 <= j < |DependsOn(deps, f)| ==>
      Met(deps, rank, wanted, DependsOn(deps, f)[j])
    ensures On(flags, f) == Met(deps, rank, wanted, f) && Underway(deps, rank, wanted, flags, memo[f := On(flags, f)])
  {
    if !missing { AllMet(deps, rank, wanted, f); }
  }

  lemma UnmetDependency(deps: Dependencies, rank: Feature -> nat, wanted: set<Feature>, f: Feature, g: Feature)
    requires Ranked(deps, rank) && g in DependsOn(deps, f) && !Met(deps, rank, wanted, g)
    ensures !Met(deps, rank, wanted, f)
  {}

  lemma SwitchOff(deps: Dependencies, rank: Feature -> nat, wanted: set<Feature>,
                  start: map<Feature, bool>, flags: map<Feature, bool>, memo: map<Feature, bool>, f: Feature)
    requires Ranked(deps, rank) && Underway(deps, rank, wanted, flags, memo) && !Met(deps, rank, wanted, f)
    requires OnlySwitchedOff(start, flags) && On(start, f)
    ensures Underway(deps, rank, wanted, flags[f := false], memo) && OnlySwitchedOff(start, flags[f := false])
  {}

  lemma AllMet(deps: Dependencies, rank: Feature -> nat, wanted: set<Feature>, f: Feature)
    requires Ranked(deps, rank) && f in wanted
    requires forall j :: 0 <= j < |DependsOn(deps, f)| ==> Met(deps, rank, wanted, DependsOn(deps, f)[j])
    ensures Met(deps, rank, wanted, f)
  {}

  // --- Setting flags ----------------------------------------------------------------------

  predicate Truthy(s: string) {
    Upper(s) == "1" || Upper(s) == "YES" || Upper(s) == "TRUE" || Upper(s) == "OK"
  }

  datatype Setting = Setting(feature: Feature, on: bool)

  /** What one argument asks for: a supported feature, alone or with a value. */
  function Parse(supported: seq<Feature>, arg: string): Option<Setting> {
    var parts := Split(arg, '=');
    if |parts| > 2 || parts[0] !in supported then None
    else Some(Setting(parts[0], |parts| == 1 || Truthy(parts[1])))
  }

  /** The flags after the arguments up to the first one that cannot be parsed. */
  function Applied(supported: seq<Feature>, flags: map<Feature, bool>, args: seq<string>): map<Feature, bool>
    decreases |args|
  {
    if args == [] || Parse(supported, args[0]).None? then flags
    else
      var setting := Parse(supported, args[0]).value;
      Applied(supported, flags[setting.feature := setting.on], args[1..])
  }

  /** A feature alone is switched on; with a value it is switched on or off by it; two values are too many. */
  lemma ParseMeans(supported: seq<Feature>, f: Feature, v: string, w: string)
    requires '=' !in f && '=' !in v && '=' !in w
    ensures Parse(supported, f) == if f in supported then Some(Setting(f, true)) else None
    ensures Parse(supported, f + "=" + v) == if f in supported then Some(Setting(f, Truthy(v))) else None
    ensures Parse(supported, f + "=" + v + "=" + w) == None
  {
    hide Truthy;
    SplitJoined([f], '=');
    SplitJoined([f, v], '=');
    assert Join([f, v], '=') == f + "=" + v;
    SplitJoined([f, v, w], '=');
    JoinCons(f, [v, w], '=');
    JoinCons(v, [w], '=');
    assert [f] + [v, w] == [f, v, w] && [v] + [w] == [v, w] && Join([w], '=') == w;
    assert f + "=" + (v + "=" + w) == f + "=" + v + "=" + w;
  }

  /** Nothing else is accepted. */
  lemma ParseOnlyIf(supported: seq<Feature>, arg: string)
    requires Parse(supported, arg).Some?
    ensures var f := Parse(supported, arg).value.feature;
            f in supported && (arg == f || exists v :: arg == f + "=" + v)
  {
    hide Truthy;
    var parts := Split(arg, '=');
    if |parts| == 2 {
      assert parts[1..] == [parts[1]];
      assert Join(parts, '=') == parts[0] + "=" + parts[1];
    }
  }

  /** A word switches on in any case if it does in one. */
  lemma TruthyIgnoresCase(s: string)
    ensures Truthy(Upper(s)) == Truthy(s)
  {
    UpperTwice(s);
  }

  lemma TruthyWords()
    ensures Truthy("true") && Truthy("1") && !Truthy("false") && !Truthy("0")
  {
    UpperIs("true", "TRUE");
    UpperIs("1", "1");
    UpperIsNone("false", ["1", "YES", "TRUE", "OK"]);
    UpperIsNone("0", ["1", "YES", "TRUE", "OK"]);
  }

  /** Of several arguments for a feature the last one counts; the others leave its flag alone. */
  lemma {:induction false} LastArgumentCounts(supported: seq<Feature>, flags: map<Feature, bool>, args: seq<string>,
                                              f: Feature, n: nat)
    requires n <= |args| && forall i :: 0 <= i < |args| ==> Parse(supported, args[i]).Some?
    requires forall i :: n <= i < |args| ==> Parse(supported, args[i]).value.feature != f
    requires n > 0 ==> Parse(supported, args[n - 1]).value.feature == f
    ensures var after := Applied(supported, flags, args);
            if n > 0 then f in after && after[f] == Parse(supported, args[n - 1]).value.on
            else (f in after <==> f in flags) && (f in flags ==> after[f] == flags[f])
    decreases |args|
  {
    hide Parse;
    if args != [] {
      var setting := Parse(supported, args[0]).value;
      var rest := args[1..];
      assert forall i :: 0 <= i < |rest| ==> rest[i] == args[i + 1];
      LastArgumentCounts(supported, flags[setting.feature := setting.on], rest, f, if n > 0 then n - 1 else 0);
    }
  }

  method ContainsFeature(features: seq<Feature>, f: Feature) returns (r: bool)
    ensures r == (f in features)
  {
    for i := 0 to |features|
      invariant f !in features[..i]
    {
      if features[i] == f {
        return true;
      }
    }
    r := false;
  }

  /** Set the flags the arguments ask for; fails at the first argument that cannot be parsed. */
  method ApplyArguments(supported: seq<Feature>, fg: FeatureFlag, args: seq<string>) returns (err: bool)
    modifies fg
    ensures err <==> exists i :: 0 <= i < |args| && Parse(supported, args[i]).None?
    ensures fg.flags == Applied(supported, old(fg.flags), args)
  {
    assert args[0..] == args;
    for i := 0 to |args|
      invariant Applied(supported, old(fg.flags), args) == Applied(supported, fg.flags, args[i..])
      invariant forall j :: 0 <= j < i ==> Parse(supported, args[j]).Some?
    {
      assert args[i..][0] == args[i] && args[i..][1..] == args[i + 1..];
      var on := true;
      var s := Split(args[i], '=');
      var f := s[0];
      if |s| == 2 {
        on := Truthy(s[1]);
      } else if |s| > 2 {
        return true;
      }
      var known := ContainsFeature(supported, f);
      if !known {
        return true;
      }
      fg.flags := fg.flags[f := on];
    }
    err := false;
  }

  /**
    Set the flags, then validate every feature in any order.  On success exactly the
    granted features are on, and everything memoized agrees with the final flags.
    */
  method SetFeatureFlag(supported: seq<Feature>, deps: Dependencies, fg: FeatureFlag, args: seq<string>,
                        ghost rank: Feature -> nat)
    returns (err: bool, memo: FeatureFlag)
    requires Ranked(deps, rank)
    modifies fg
    ensures fresh(memo)
    ensures err <==> exists i :: 0 <= i < |args| && Parse(supported, args[i]).None?
    ensures err ==> fg.flags == Applied(supported, old(fg.flags), args)
    ensures !err ==> (
      var asked := Applied(supported, old(fg.flags), args);
      && fg.flags.Keys == asked.Keys && Enabled(fg.flags) == Granted(deps, rank, Enabled(asked))
      && forall f :: f in memo.flags ==> memo.flags[f] == fg.IsEnabled(f))
  {
    memo := new FeatureFlag(map[]);
    err := ApplyArguments(supported, fg, args);
    if err {
      return;
    }
    ghost var asked := fg.flags;
    ghost var wanted := Enabled(asked);
    var left := fg.flags.Keys;
    while left != {}
      invariant fresh(memo) && fg != memo && left <= asked.Keys
      invariant Underway(deps, rank, wanted, fg.flags, memo.flags) && OnlySwitchedOff(asked, fg.flags)
      invariant forall f :: f in asked && f !in left && On(fg.flags, f) ==> Met(deps, rank, wanted, f)
    {
      hide Met;
      var feature :| feature in left;
      left := left - {feature};
      var _ := ValidateDependencies(deps, feature, fg, memo, rank, wanted);
    }
    SwitchedOffExactly(deps, rank, wanted, asked, fg.flags, memo.flags);
  }

  lemma SwitchedOffExactly(deps: Dependencies, rank: Feature -> nat, wanted: set<Feature>,
                           asked: map<Feature, bool>, flags: map<Feature, bool>, memo: map<Feature, bool>)
    requires Ranked(deps, rank) && wanted == Enabled(asked) && Underway(deps, rank, wanted, flags, memo)
    requires flags.Keys == asked.Keys
    requires forall f :: f in asked && On(flags, f) ==> Met(deps, rank, wanted, f)
    ensures Enabled(flags) == Granted(deps, rank, wanted)
  {
    hide Met;
    forall f ensures f in Enabled(flags) <==> f in Granted(deps, rank, wanted) {
      assert f in Enabled(flags) <==> On(flags, f);
      assert f in wanted ==> f in asked;
    }
  }

  // --- The shipped gates ----------------------------------------------------------------------

  const GPT_BASED_UUID := "GPTBasedUUID"
  const API_SERVICE := "APIService"
  const USE_OS_DISK := "UseOSDisk"
  const CHANGE_DETECTION := "ChangeDetection"
  const PARTITION_TABLE_UUID := "PartitionTableUUID"

  const SUPPORTED := [GPT_BASED_UUID, API_SERVICE, USE_OS_DISK, CHANGE_DETECTION, PARTITION_TABLE_UUID]

  const DEFAULTS := map[
    GPT_BASED_UUID := true,
    API_SERVICE := false,
    USE_OS_DISK := false,
    CHANGE_DETECTION := false,
    PARTITION_TABLE_UUID := false]

  const SHIPPED: Dependencies := map[PARTITION_TABLE_UUID := [GPT_BASED_UUID]]

  function ShippedRank(f: Feature): nat {
    if f == PARTITION_TABLE_UUID then 1 else 0
  }

  lemma ShippedHasNoCycle()
    ensures Ranked(SHIPPED, ShippedRank)
  {
    assert |GPT_BASED_UUID| != |PARTITION_TABLE_UUID|;
  }

  /** Partition table uuids are never in force without GPT based uuids. */
  lemma PartitionTableNeedsGpt(wanted: set<Feature>)
    ensures Ranked(SHIPPED, ShippedRank)
    ensures var on := Granted(SHIPPED, ShippedRank, wanted); PARTITION_TABLE_UUID in on ==> GPT_BASED_UUID in on
    ensures forall f :: f in wanted && f != PARTITION_TABLE_UUID ==> f in Granted(SHIPPED, ShippedRank, wanted)
  {
    ShippedHasNoCycle();
    GrantedIsGreatest(SHIPPED, ShippedRank, wanted, {});
    assert GPT_BASED_UUID in DependsOn(SHIPPED, PARTITION_TABLE_UUID);
  }

  /** A new gate holds the defaults, copied one by one in any order. */
  method NewFeatureGate() returns (fg: FeatureFlag)
    ensures fresh(fg) && fg.flags == DEFAULTS
  {
    fg := new FeatureFlag(map[]);
    var left := DEFAULTS.Keys;
    while left != {}
      invariant fresh(fg) && left <= DEFAULTS.Keys
      invariant fg.flags.Keys == DEFAULTS.Keys - left && forall f :: f in fg.flags ==> fg.flags[f] == DEFAULTS[f]
    {
      var f :| f in left;
      left := left - {f};
      fg.flags := fg.flags[f := DEFAULTS[f]];
    }
  }

  /** Arguments add no flag but for supported features, and drop none. */
  lemma {:induction false} AppliedKeys(supported: seq<Feature>, flags: map<Feature, bool>, args: seq<string>)
    ensures flags.Keys <= Applied(supported, flags, args).Keys
    ensures forall f :: f in Applied(supported, flags, args) ==> f in flags || f in supported
    decreases |args|
  {
    hide Truthy;
    if args != [] && Parse(supported, args[0]).Some? {
      var setting := Parse(supported, args[0]).value;
      AppliedKeys(supported, flags[setting.feature := setting.on], args[1..]);
    }
  }

  /** What the shipped gates grant: everything asked for, but partition table uuids only with GPT based uuids. */
  lemma ShippedGrants(wanted: set<Feature>)
    ensures Ranked(SHIPPED, ShippedRank)
    ensures Granted(SHIPPED, ShippedRank, wanted) == if GPT_BASED_UUID in wanted then wanted
      else wanted - {PARTITION_TABLE_UUID}
  {
    PartitionTableNeedsGpt(wanted);
    if GPT_BASED_UUID in wanted {
      GrantedIsGreatest(SHIPPED, ShippedRank, wanted, wanted);
    }
  }

  /**
    The shipped gates with any arguments: there is a flag for exactly the supported
    features, and exactly what was asked for is on, except partition table uuids without
    GPT based uuids.
    */
  method ShippedFeatureGates(args: seq<string>) returns (fg: FeatureFlag, err: bool)
    ensures fresh(fg)
    ensures err <==> exists i :: 0 <= i < |args| && Parse(SUPPORTED, args[i]).None?
    ensures fg.flags.Keys == (set f | f in SUPPORTED)
    ensures !err ==> (
      var asked := Enabled(Applied(SUPPORTED, DEFAULTS, args));
      Enabled(fg.flags) == if GPT_BASED_UUID in asked then asked else asked - {PARTITION_TABLE_UUID})
  {
    hide Truthy, Applied;
    fg := NewFeatureGate();
    ShippedHasNoCycle();
    var memo;
    err, memo := SetFeatureFlag(SUPPORTED, SHIPPED, fg, args, ShippedRank);
    ghost var asked := Applied(SUPPORTED, DEFAULTS, args);
    ShippedGrants(Enabled(asked));
    AppliedKeys(SUPPORTED, DEFAULTS, args);
  }
}
