/** The two custom types of the schema layer: the CUID identifier string and the
    ISO datetime pre-processing. */
module BaseTypes {
  import opened Validation

  // ---------------------------------------------------------------------------
  // Raw input values
  // ---------------------------------------------------------------------------

  /** A decoded value as it reaches a custom validator, before any typing. */
  datatype Raw =
    | RawNull
    | RawBool(b: bool)
    | RawInt(i: int)
    | RawFloat(x: real)
    | RawStr(s: string)
    | RawDatetime(t: Moment)   // an already constructed datetime object

  // ---------------------------------------------------------------------------
  // CUID
  // ---------------------------------------------------------------------------

  /** The characters matched by `\s` in a Python `str` pattern (those for which
      `str.isspace()` holds). */
  predicate IsSpace(ch: char) {
    || ch == ' ' || ch == '\t' || ch == '\n' || ch == '\r'
    || ch == '\U{000B}' || ch == '\U{000C}'
    || ('\U{001C}' <= ch <= '\U{001F}')
    || ch == '\U{0085}' || ch == '\U{00A0}' || ch == '\U{1680}'
    || ('\U{2000}' <= ch <= '\U{200A}')
    || ch == '\U{2028}' || ch == '\U{2029}' || ch == '\U{202F}'
    || ch == '\U{205F}' || ch == '\U{3000}'
  }

  /** The character class `[^\s-]`. */
  predicate IdChar(ch: char) {
    !IsSpace(ch) && ch != '-'
  }

  /** At least eight characters of the class `[^\s-]`. */
  predicate CuidBody(t: string) {
    |t| >= 8 && forall k :: 0 <= k < |t| ==> IdChar(t[k])
  }

  /** The strings the CUID pattern accepts, stated declaratively: `c` and a body,
      optionally followed by one final newline (Python's `$` also matches just
      before a newline that ends the string). */
  predicate IsCuid(s: string) {
    && |s| >= 1
    && s[0] == 'c'
    && (CuidBody(s[1..]) || (s[|s| - 1] == '\n' && |s| >= 2 && CuidBody(s[1..|s| - 1])))
  }

  /** A validated CUID. */
  type Cuid = s: string | IsCuid(s) witness "c00000000"

  /** How many characters of the class follow position `i`: the greedy
      repetition of `[^\s-]`. */
  function RunLength(s: string, i: nat): (n: nat)
    requires i <= |s|
    ensures i + n <= |s|
    ensures forall k :: i <= k < i + n ==> IdChar(s[k])
    ensures i + n == |s| || !IdChar(s[i + n])
    decreases |s| - i
  {
    if i == |s| || !IdChar(s[i]) then 0 else 1 + RunLength(s, i + 1)
  }

  /** Python's `$` (without MULTILINE) at position `p`. */
  predicate DollarAt(s: string, p: nat)
    requires p <= |s|
  {
    p == |s| || (p == |s| - 1 && s[p] == '\n')
  }

  /** The regex engine's backtracking over the repetition count of `{8,}`:
      counts are tried from `count` down to `least`, and the match succeeds as
      soon as `$` matches after `c` and that many class characters. */
  function Backtrack(s: string, count: nat, least: nat): bool
    requires 1 + count <= |s|
    decreases count
  {
    if count < least then false
    else if DollarAt(s, 1 + count) then true
    else count > 0 && Backtrack(s, count - 1, least)
  }

  /** `re.compile(r'^c[^\s-]{8,}$').match(s)` succeeds. */
  predicate PatternMatches(s: string) {
    |s| >= 1 && s[0] == 'c' && Backtrack(s, RunLength(s, 1), 8)
  }

  /** `$` matches after `c` and `k` characters of the class. */
  predicate EndsAfter(s: string, k: nat) {
    1 + k <= |s| && DollarAt(s, 1 + k)
  }

  /** Backtracking succeeds iff some count in range lets `$` match. */
  lemma {:induction false} BacktrackFinds(s: string, count: nat, least: nat)
    requires 1 + count <= |s|
    ensures Backtrack(s, count, least) <==> exists k :: least <= k <= count && EndsAfter(s, k)
    decreases count
  {
    if count < least {
    } else if DollarAt(s, 1 + count) {
      assert EndsAfter(s, count);
    } else if count > 0 {
      BacktrackFinds(s, count - 1, least);
      assert forall k :: least <= k <= count && EndsAfter(s, k) ==> k <= count - 1;
    } else {
      assert !EndsAfter(s, 0);
    }
  }

  /** The greedy run from `i` stops exactly at `j` when `[i, j)` are class
      characters and `j` is the end or a character outside the class. */
  lemma {:induction false} RunLengthIs(s: string, i: nat, j: nat)
    requires i <= j <= |s|
    requires forall k :: i <= k < j ==> IdChar(s[k])
    requires j == |s| || !IdChar(s[j])
    ensures i + RunLength(s, i) == j
    decreases j - i
  {
    if i < j {
      RunLengthIs(s, i + 1, j);
    }
  }

  /** The regex and the declarative description accept the same strings. */
  lemma PatternMatchesIsCuid(s: string)
    ensures PatternMatches(s) <==> IsCuid(s)
  {
    if |s| >= 1 && s[0] == 'c' {
      var run := RunLength(s, 1);
      BacktrackFinds(s, run, 8);
      // `$` can only match where the greedy run stops: inside it the next
      // character is a class character, hence neither the end nor a newline.
      forall k | 8 <= k < run
        ensures !EndsAfter(s, k)
      {
        assert IdChar(s[1 + k]);
      }
      if PatternMatches(s) {
        assert EndsAfter(s, run);
        if 1 + run == |s| {
          assert CuidBody(s[1..]);
        } else {
          assert CuidBody(s[1..|s| - 1]);
        }
      }
      if IsCuid(s) {
        if CuidBody(s[1..]) {
          forall k | 1 <= k < |s| ensures IdChar(s[k]) {
            assert s[k] == s[1..][k - 1];
          }
          RunLengthIs(s, 1, |s|);
          assert EndsAfter(s, run);
        } else {
          forall k | 1 <= k < |s| - 1 ensures IdChar(s[k]) {
            assert s[k] == s[1..|s| - 1][k - 1];
          }
          RunLengthIs(s, 1, |s| - 1);
          assert EndsAfter(s, run);
        }
      }
    }
  }

  /** `CUID.validate`: a non-string is a type error, a string that the pattern
      does not match is a value error, and an accepted string is returned with
      exactly its own characters. */
  function ValidateCuid(v: Raw): (r: Result<Cuid>)
    ensures r.Ok? <==> v.RawStr? && IsCuid(v.s)
    ensures r.Ok? ==> r.value == v.s
    ensures !v.RawStr? ==> r == Fail(NotAString)
    ensures v.RawStr? && !IsCuid(v.s) ==> r == Fail(NotCuid)
  {
    if !v.RawStr? then Fail(NotAString)
    else if !PatternMatches(v.s) then (PatternMatchesIsCuid(v.s); Fail(NotCuid))
    else (PatternMatchesIsCuid(v.s); Ok(v.s))
  }

  /** Every accepted CUID is at least nine characters long and starts with `c`. */
  lemma CuidShape(s: string)
    requires IsCuid(s)
    ensures |s| >= 9 && s[0] == 'c'
  {
    if !CuidBody(s[1..]) {
      assert |s[1..|s| - 1]| >= 8;
    }
  }

  /** A CUID without a trailing newline stays accepted when one newline is
      appended; a second newline makes it fail. */
  lemma CuidTrailingNewline(s: string)
    requires IsCuid(s) && s[|s| - 1] != '\n'
    ensures IsCuid(s + "\n")
    ensures !IsCuid(s + "\n\n")
  {
    var t := s + "\n";
    assert CuidBody(s[1..]);
    assert t[1..|t| - 1] == s[1..];
    var u := s + "\n\n";
    assert u[|u| - 1] == '\n' && u[|u| - 2] == '\n';
    assert !IdChar(u[1..][|u| - 2]);
    assert !IdChar(u[1..|u| - 1][|u| - 3]);
  }

  /** Concrete cases: eight characters after `c` suffice, seven do not, and a
      dash or a space anywhere in the body is refused. */
  lemma CuidExamples()
    ensures IsCuid("cm5ifmwfo001g24d2r7fzu34u")
    ensures IsCuid("c12345678") && IsCuid("c12345678\n")
    ensures !IsCuid("c1234567") && !IsCuid("c1234-5678") && !IsCuid("c1234 5678")
    ensures !IsCuid("C12345678")
  {
    assert !IdChar("c1234-5678"[5]);
    assert !IdChar("c1234-5678"[1..][4]);
    assert !IdChar("c1234 5678"[1..][4]);
  }

  // ---------------------------------------------------------------------------
  // IsoDatetime
  // ---------------------------------------------------------------------------

  /** Every `Z` replaced by `+00:00` (Python's `str.replace("Z", "+00:00")`). */
  function ReplaceZ(s: string): string {
    if s == [] then []
    else (if s[0] == 'Z' then "+00:00" else [s[0]]) + ReplaceZ(s[1..])
  }

  function CountZ(s: string): nat {
    if s == [] then 0 else (if s[0] == 'Z' then 1 else 0) + CountZ(s[1..])
  }

  /** What `IsoDatetime.validate` does with its input: a string is rewritten and
      handed to `datetime.fromisoformat`, any other value is returned as it is. */
  datatype DatetimeStep = ParseIso(text: string) | PassThrough(value: Raw)

  function ValidateIsoDatetime(v: Raw): (r: DatetimeStep)
    ensures v.RawStr? <==> r.ParseIso?
    ensures r.ParseIso? ==> r.text == ReplaceZ(v.s)
    ensures r.ParseIso? ==> 'Z' !in r.text && |r.text| == |v.s| + 5 * CountZ(v.s)
    ensures r.ParseIso? && 'Z' !in v.s ==> r.text == v.s
    ensures r.PassThrough? ==> r.value == v
  {
    if v.RawStr? then
      ReplaceZRemovesZ(v.s);
      ReplaceZLength(v.s);
      ReplaceZFixesZFree(v.s);
      ParseIso(ReplaceZ(v.s))
    else PassThrough(v)
  }

  /** No `Z` survives the rewrite. */
  lemma {:induction false} ReplaceZRemovesZ(s: string)
    ensures 'Z' !in ReplaceZ(s)
  {
    if s != [] {
      ReplaceZRemovesZ(s[1..]);
    }
  }

  /** A string without `Z` is left unchanged. */
  lemma {:induction false} ReplaceZFixesZFree(s: string)
    ensures 'Z' !in s ==> ReplaceZ(s) == s
  {
    if s != [] && 'Z' !in s {
      assert s[1..] + [] == s[1..];
      assert 'Z' !in s[1..] by {
        forall ch | ch in s[1..] ensures ch in s { }
      }
      ReplaceZFixesZFree(s[1..]);
      assert s == [s[0]] + s[1..];
    }
  }

  /** Each `Z` grows the string by five characters. */
  lemma {:induction false} ReplaceZLength(s: string)
    ensures |ReplaceZ(s)| == |s| + 5 * CountZ(s)
  {
    if s != [] {
      ReplaceZLength(s[1..]);
    }
  }

  /** The rewrite works character by character, so it distributes over
      concatenation. */
  lemma {:induction false} ReplaceZAppend(a: string, b: string)
    ensures ReplaceZ(a + b) == ReplaceZ(a) + ReplaceZ(b)
  {
    if a == [] {
      assert a + b == b;
    } else {
      assert (a + b)[1..] == a[1..] + b;
      ReplaceZAppend(a[1..], b);
    }
  }

  /** Rewriting twice is rewriting once. */
  lemma ReplaceZIdempotent(s: string)
    ensures ReplaceZ(ReplaceZ(s)) == ReplaceZ(s)
  {
    ReplaceZRemovesZ(s);
    ReplaceZFixesZFree(ReplaceZ(s));
  }
}
