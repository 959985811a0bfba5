/** A greedy, backtracking matcher for the extractor's patterns: sequences of single characters,
    unbounded repetitions and group boundaries, searched from the left. */
module Regex {
  import opened Prelude
  import Decimal

  /** Which characters beyond ASCII count as digits or as parts of words is left open. */
  const UNICODE_DIGIT: char -> bool
  const UNICODE_WORD: char -> bool

  datatype Class = Is(c: char) | Space | NonSpace | Digit | DigitOrComma | Dot | WordOrDash

  predicate IsSpace(c: char)
  {
    || c == ' ' || '\t' <= c <= '\r' || 28 as char <= c <= 31 as char
    || c == 0x85 as char || c == 0xA0 as char || c == 0x1680 as char
    || 0x2000 as char <= c <= 0x200A as char || c == 0x2028 as char || c == 0x2029 as char
    || c == 0x202F as char || c == 0x205F as char || c == 0x3000 as char
  }

  predicate IsDigit(c: char)
  {
    if c as int < 128 then Decimal.IsDigit(c) else UNICODE_DIGIT(c)
  }

  predicate IsWord(c: char)
  {
    if c as int < 128 then Decimal.IsDigit(c) || 'a' <= c <= 'z' || 'A' <= c <= 'Z' || c == '_' else UNICODE_WORD(c)
  }

  predicate In(k: Class, c: char)
  {
    match k
    case Is(d) => c == d
    case Space => IsSpace(c)
    case NonSpace => !IsSpace(c)
    case Digit => IsDigit(c)
    case DigitOrComma => IsDigit(c) || c == ','
    case Dot => c != '\n'
    case WordOrDash => IsWord(c) || c == '-'
  }

  /** `Many` repeats as often as it can and gives back what the rest needs; a group is what lies between
      two marks. */
  datatype Item = One(k: Class) | Many(k: Class, least: nat) | Mark

  type Pattern = seq<Item>

  function Text(s: string): (p: Pattern)
    ensures |p| == |s| && forall i :: 0 <= i < |s| ==> p[i] == One(Is(s[i]))
  {
    seq(|s|, i requires 0 <= i < |s| => One(Is(s[i])))
  }

  function Marks(p: Pattern): nat
  {
    multiset(p)[Mark]
  }

  lemma MarksHead(p: Pattern)
    requires p != []
    ensures Marks(p) == (if p[0].Mark? then 1 else 0) + Marks(p[1..])
  {
    assert p == [p[0]] + p[1..];
  }

  /** How many characters of a class follow. */
  function Run(k: Class, s: string, at: nat): (n: nat)
    requires at <= |s|
    ensures at + n <= |s|
    decreases |s| - at
  {
    if at < |s| && In(k, s[at]) then 1 + Run(k, s, at + 1) else 0
  }

  /** The marks of the first match that starts at a position, and its end. */
  function MatchAt(p: Pattern, s: string, at: nat): Option<seq<nat>>
    requires at <= |s|
    decreases |p|, 1, 0
  {
    if p == [] then Some([at])
    else
      match p[0]
      case Mark =>
        (match MatchAt(p[1..], s, at)
         case None => None
         case Some(m) => Some([at] + m))
      case One(k) => if at < |s| && In(k, s[at]) then MatchAt(p[1..], s, at + 1) else None
      case Many(k, least) => Longest(p, s, at, Run(k, s, at))
  }

  /** The first match with the leading repetition as long as possible, up to `n`. */
  function Longest(p: Pattern, s: string, at: nat, n: nat): Option<seq<nat>>
    requires p != [] && p[0].Many? && at + n <= |s|
    decreases |p|, 0, n
  {
    if n < p[0].least then None
    else
      match MatchAt(p[1..], s, at + n)
      case Some(m) => Some(m)
      case None => if n == 0 then None else Longest(p, s, at, n - 1)
  }

  /** The leftmost match from a position on. */
  function Search(p: Pattern, s: string, from: nat): Option<seq<nat>>
    requires from <= |s|
    decreases |s| - from
  {
    match MatchAt(p, s, from)
    case Some(m) => Some(m)
    case None => if from < |s| then Search(p, s, from + 1) else None
  }

  // ---- What a match is --------------------------------------------------------------------------

  /** Positions in order, inside the text. */
  ghost predicate Positions(m: seq<nat>, low: nat, high: nat)
  {
    && (forall i :: 0 <= i < |m| ==> low <= m[i] <= high)
    && (forall i, j :: 0 <= i < j < |m| ==> m[i] <= m[j])
  }

  lemma {:induction false} MatchIsInside(p: Pattern, s: string, at: nat)
    requires at <= |s| && MatchAt(p, s, at).Some?
    ensures |MatchAt(p, s, at).value| == Marks(p) + 1
    ensures Positions(MatchAt(p, s, at).value, at, |s|)
    decreases |p|, 1, 0
  {
    if p != [] {
      MarksHead(p);
      match p[0]
      case Mark => MatchIsInside(p[1..], s, at);
      case One(_) => MatchIsInside(p[1..], s, at + 1);
      case Many(k, _) => LongestIsInside(p, s, at, Run(k, s, at));
    }
  }

  lemma {:induction false} LongestIsInside(p: Pattern, s: string, at: nat, n: nat)
    requires p != [] && p[0].Many? && at + n <= |s| && Longest(p, s, at, n).Some?
    ensures |Longest(p, s, at, n).value| == Marks(p) + 1
    ensures Positions(Longest(p, s, at, n).value, at, |s|)
    decreases |p|, 0, n
  {
    MarksHead(p);
    if MatchAt(p[1..], s, at + n).Some? {
      MatchIsInside(p[1..], s, at + n);
    } else {
      LongestIsInside(p, s, at, n - 1);
    }
  }

  lemma {:induction false} SearchIsInside(p: Pattern, s: string, from: nat)
    requires from <= |s| && Search(p, s, from).Some?
    ensures |Search(p, s, from).value| == Marks(p) + 1
    ensures Positions(Search(p, s, from).value, from, |s|)
    decreases |s| - from
  {
    if MatchAt(p, s, from).Some? {
      MatchIsInside(p, s, from);
    } else {
      SearchIsInside(p, s, from + 1);
    }
  }

  // ---- Finding a match --------------------------------------------------------------------------

  predicate OccursAt(t: string, s: string, at: nat)
  {
    at + |t| <= |s| && s[at..at + |t|] == t
  }

  lemma OccursHead(t: string, s: string, at: nat)
    requires t != ""
    ensures OccursAt(t, s, at) <==> at < |s| && s[at] == t[0] && OccursAt(t[1..], s, at + 1)
  {
    if at + |t| <= |s| {
      assert s[at..at + |t|] == [s[at]] + s[at + 1..at + |t|];
      assert t == [t[0]] + t[1..];
    }
  }

  /** A literal start of a pattern is a plain comparison. */
  lemma {:induction false} TextMatches(t: string, p: Pattern, s: string, at: nat)
    requires at <= |s|
    ensures MatchAt(Text(t) + p, s, at) == if OccursAt(t, s, at) then MatchAt(p, s, at + |t|) else None
    decreases |t|
  {
    hide OccursAt;
    if t == "" {
      assert Text(t) + p == p;
      assert OccursAt(t, s, at) by { NothingOccurs(t, s, at); }
    } else {
      var q := Text(t) + p;
      assert q[0] == One(Is(t[0])) && q[1..] == Text(t[1..]) + p;
      OccursHead(t, s, at);
      if at < |s| && s[at] == t[0] {
        TextMatches(t[1..], p, s, at + 1);
      }
    }
  }

  lemma NothingOccurs(t: string, s: string, at: nat)
    requires t == "" && at <= |s|
    ensures OccursAt(t, s, at)
  {
  }

  /** A repetition followed by one length that works and only longer ones that do not. */
  lemma {:induction false} LongestIs(p: Pattern, s: string, at: nat, n: nat, k: nat, m: seq<nat>)
    requires p != [] && p[0].Many? && at + n <= |s| && p[0].least <= k <= n
    requires MatchAt(p[1..], s, at + k) == Some(m)
    requires forall e :: at + k < e <= at + n ==> MatchAt(p[1..], s, e) == None
    ensures Longest(p, s, at, n) == Some(m)
    decreases n
  {
    if k < n {
      LongestIs(p, s, at, n - 1, k, m);
    }
  }

  lemma {:induction false} RunIs(k: Class, s: string, at: nat, n: nat)
    requires at + n <= |s|
    requires forall i :: at <= i < at + n ==> In(k, s[i])
    requires at + n == |s| || !In(k, s[at + n])
    ensures Run(k, s, at) == n
    decreases n
  {
    if n > 0 {
      RunIs(k, s, at + 1, n - 1);
    }
  }

  /** A repetition that is followed by a match at its full length. */
  lemma FullRun(p: Pattern, s: string, at: nat, n: nat, m: seq<nat>)
    requires p != [] && p[0].Many? && at + n <= |s| && p[0].least <= n
    requires Run(p[0].k, s, at) == n && MatchAt(p[1..], s, at + n) == Some(m)
    ensures MatchAt(p, s, at) == Some(m)
  {
    LongestIs(p, s, at, n, n, m);
  }

  lemma {:induction false} SearchFinds(p: Pattern, s: string, from: nat, at: nat, m: seq<nat>)
    requires from <= at <= |s| && MatchAt(p, s, at) == Some(m)
    requires forall i :: from <= i < at ==> MatchAt(p, s, i) == None
    ensures Search(p, s, from) == Some(m)
    decreases at - from
  {
    if from < at {
      SearchFinds(p, s, from + 1, at, m);
    }
  }
}
