/**
  The string functions the parsers use.
  */
module Text {
  /**
    Upper case, for the letters of the words it is compared with; besides the small
    letters only the long s maps to one of them.
    */
  function Upper(s: string): string {
    if s == [] then [] else [UpperChar(s[0])] + Upper(s[1..])
  }

  function UpperChar(c: char): char {
    if 'a' <= c <= 'z' then c - 32 as char
    else if c == '\U{017F}' then 'S'
    else c
  }

  /** The parts of s between occurrences of c. */
  function Split(s: string, c: char): (r: seq<string>)
    ensures |r| > 0 && forall i :: 0 <= i < |r| ==> c !in r[i]
    ensures Join(r, c) == s
  {
    if s == [] then [""]
    else
      var rest := Split(s[1..], c);
      if s[0] == c then
        assert Join([""] + rest, c) == [c] + Join(rest, c) by { JoinCons("", rest, c); }
        [""] + rest
      else
        assert Join([[s[0]] + rest[0]] + rest[1..], c) == [s[0]] + Join(rest, c) by { JoinLonger(s[0], rest, c); }
        [[s[0]] + rest[0]] + rest[1..]
  }

  function Join(parts: seq<string>, c: char): string {
    if parts == [] then "" else if |parts| == 1 then parts[0] else parts[0] + [c] + Join(parts[1..], c)
  }

  /** Splitting undoes joining. */
  lemma {:induction false} SplitJoined(parts: seq<string>, c: char)
    requires parts != [] && forall i :: 0 <= i < |parts| ==> c !in parts[i]
    ensures Split(Join(parts, c), c) == parts
    decreases |Join(parts, c)|
  {
    if parts[0] == "" {
      if |parts| > 1 {
        SplitJoined(parts[1..], c);
        assert Join(parts, c)[1..] == Join(parts[1..], c);
        assert parts == [""] + parts[1..];
      } else {
        assert parts == [""];
      }
    } else {
      var x, rest := parts[0][0], [parts[0][1..]] + parts[1..];
      JoinLonger(x, rest, c);
      assert [x] + rest[0] == parts[0] && rest[1..] == parts[1..] && [parts[0]] + parts[1..] == parts;
      SplitJoined(rest, c);
      assert Join(parts, c)[1..] == Join(rest, c);
    }
  }

  /** Upper case changes each letter by itself. */
  lemma {:induction false} UpperIs(s: string, w: string)
    ensures Upper(s) == w <==> |s| == |w| && forall i :: 0 <= i < |s| ==> UpperChar(s[i]) == w[i]
  {
    if s != [] && w != [] {
      UpperIs(s[1..], w[1..]);
      assert w == [w[0]] + w[1..];
    }
  }

  /** A word that differs from each of the words, in length or in its first letter, is none of them in upper case. */
  lemma UpperIsNone(s: string, words: seq<string>)
    requires forall i :: 0 <= i < |words| ==> |s| != |words[i]| || (s != "" && UpperChar(s[0]) != words[i][0])
    ensures forall i :: 0 <= i < |words| ==> Upper(s) != words[i]
  {
    forall i | 0 <= i < |words| ensures Upper(s) != words[i] { UpperIs(s, words[i]); }
  }

  lemma {:induction false} UpperTwice(s: string)
    ensures Upper(Upper(s)) == Upper(s)
  {
    if s != [] { UpperTwice(s[1..]); }
  }

  lemma JoinCons(x: string, parts: seq<string>, c: char)
    requires parts != []
    ensures Join([x] + parts, c) == x + [c] + Join(parts, c)
  {
    assert ([x] + parts)[1..] == parts;
  }

  lemma JoinLonger(x: char, parts: seq<string>, c: char)
    requires parts != []
    ensures Join([[x] + parts[0]] + parts[1..], c) == [x] + Join(parts, c)
  {
    var longer := [[x] + parts[0]] + parts[1..];
    if |parts| > 1 {
      assert longer[1..] == parts[1..];
      assert ([x] + parts[0]) + [c] + Join(parts[1..], c) == [x] + (parts[0] + [c] + Join(parts[1..], c));
    }
  }
}
