/** The dedup key of a queued stage: the underscored class name of the
    service, an underscore, and the service id in decimal. */
module TaskKey {

  predicate IsUpper(c: char) { 'A' <= c <= 'Z' }
  predicate IsLower(c: char) { 'a' <= c <= 'z' }
  predicate IsDigit(c: char) { '0' <= c <= '9' }

  function Downcase(c: char): (d: char)
    ensures !IsUpper(d)
    ensures IsUpper(c) ==> IsLower(d)
    ensures !IsUpper(c) ==> d == c
  {
    if IsUpper(c) then (c as int + 32) as char else c
  }

  function DowncaseAll(s: string): (r: string)
    ensures |r| == |s|
  {
    if s == [] then [] else DowncaseAll(s[..|s| - 1]) + [Downcase(s[|s| - 1])]
  }

  /** True when an underscore goes in front of the last character of `s`:
      it is upper case and follows a lower-case letter or a digit. */
  predicate WordBoundaryAtEnd(s: string)
  {
    |s| >= 2 && IsUpper(s[|s| - 1]) && (IsLower(s[|s| - 2]) || IsDigit(s[|s| - 2]))
  }

  /** String#underscore on a CamelCase class name: an underscore before
      every upper-case letter that follows a lower-case letter or a digit,
      then everything in lower case. */
  function Underscore(s: string): (r: string)
    ensures forall k :: 0 <= k < |r| ==> !IsUpper(r[k])
  {
    if s == [] then []
    else
      var sep := if WordBoundaryAtEnd(s) then "_" else "";
      Underscore(s[..|s| - 1]) + sep + [Downcase(s[|s| - 1])]
  }

  /** `s` with every underscore removed. */
  function DropSeparators(s: string): (r: string)
    ensures |r| <= |s|
    ensures '_' !in r
  {
    if s == [] then []
    else DropSeparators(s[..|s| - 1]) + (if s[|s| - 1] == '_' then [] else [s[|s| - 1]])
  }

  lemma {:induction false} DropSeparatorsAppend(a: string, b: string)
    ensures DropSeparators(a + b) == DropSeparators(a) + DropSeparators(b)
    decreases |b|
  {
    if b == [] {
      assert a + b == a;
    } else {
      var b' := b[..|b| - 1];
      assert (a + b)[..|a + b| - 1] == a + b';
      DropSeparatorsAppend(a, b');
    }
  }

  lemma DropSeparatorsOfSeparator(sep: string)
    requires sep == "_" || sep == ""
    ensures DropSeparators(sep) == []
  {
    if sep == "_" { assert sep[..0] == []; }
  }

  /** Underscoring only inserts separators and lowers case: with the
      underscores taken out, the result is the lower-cased name. */
  lemma {:induction false} UnderscoreOnlyAddsSeparators(s: string)
    ensures DropSeparators(Underscore(s)) == DropSeparators(DowncaseAll(s))
  {
    if s != [] {
      var init, last := s[..|s| - 1], [Downcase(s[|s| - 1])];
      var sep := if WordBoundaryAtEnd(s) then "_" else "";
      var u := Underscore(init);
      assert Underscore(s) == u + sep + last;
      assert DowncaseAll(s) == DowncaseAll(init) + last;
      UnderscoreOnlyAddsSeparators(init);
      DropSeparatorsOfSeparator(sep);
      DropSeparatorsAppend(u, sep);
      assert DropSeparators(u + sep) == DropSeparators(u);
      DropSeparatorsAppend(u + sep, last);
      DropSeparatorsAppend(DowncaseAll(init), last);
    }
  }

  /** The positions of `s` that start a new word: an upper-case letter
      right after a lower-case letter or a digit. */
  function Boundaries(s: string): set<int>
  {
    set i | 0 < i < |s| && IsUpper(s[i]) && (IsLower(s[i - 1]) || IsDigit(s[i - 1]))
  }

  /** The word starts of `s` are those of `s` without its last character,
      plus the last position when a word starts there. */
  lemma BoundariesOfLast(s: string)
    requires s != []
    ensures var init := s[..|s| - 1];
      Boundaries(s) == Boundaries(init) + (if WordBoundaryAtEnd(s) then {|s| - 1} else {})
  {
    var init := s[..|s| - 1];
    if |s| == 1 {
      assert !WordBoundaryAtEnd(s);
    }
  }

  /** Underscoring adds exactly one separator per word start: the result
      is as long as the name plus the number of positions where an
      upper-case letter follows a lower-case letter or a digit. */
  lemma {:induction false} UnderscoreLength(s: string)
    ensures |Underscore(s)| == |s| + |Boundaries(s)|
  {
    if s != [] {
      var init := s[..|s| - 1];
      UnderscoreLength(init);
      BoundariesOfLast(s);
      if WordBoundaryAtEnd(s) {
        assert |s| - 1 !in Boundaries(init);
      }
    }
  }

  /** A name without word starts is only lower-cased: no separator goes in
      front of a letter that does not start a new word. */
  lemma {:induction false} UnderscoreWithoutBoundaries(s: string)
    requires Boundaries(s) == {}
    ensures Underscore(s) == DowncaseAll(s)
  {
    if s != [] {
      var init := s[..|s| - 1];
      BoundariesOfLast(s);
      UnderscoreWithoutBoundaries(init);
    }
  }

  /** Underscoring a prefix of a name gives a prefix of the result. */
  lemma {:induction false} UnderscorePrefix(s: string, n: nat)
    requires n <= |s|
    ensures |Underscore(s[..n])| <= |Underscore(s)|
    ensures Underscore(s)[..|Underscore(s[..n])|] == Underscore(s[..n])
  {
    if n == |s| {
      assert s[..n] == s;
    } else {
      var init := s[..|s| - 1];
      assert s[..n] == init[..n];
      UnderscorePrefix(init, n);
    }
  }

  /** Where each character ends up: the lower-cased `s[i]` sits at `i` plus
      the number of word starts up to and including `i`. The character in
      front of it is `_` when `i` starts a word, and otherwise the
      lower-cased `s[i - 1]`. */
  lemma UnderscorePlacement(s: string, i: nat)
    requires i < |s|
    ensures var r, p := Underscore(s), i + |Boundaries(s[..i + 1])|;
      && p < |r|
      && r[p] == Downcase(s[i])
      && (i in Boundaries(s) ==> r[p - 1] == '_')
      && (0 < i && i !in Boundaries(s) ==> r[p - 1] == Downcase(s[i - 1]))
  {
    var t := s[..i + 1];
    var r, u := Underscore(s), Underscore(t);
    UnderscorePrefix(s, i + 1);
    UnderscoreLength(t);
    assert t[..|t| - 1] == s[..i];
    assert i in Boundaries(s) <==> WordBoundaryAtEnd(t);
    if 0 < i && i !in Boundaries(s) {
      var v := Underscore(s[..i]);
      assert s[..i][..i - 1 + 1] == s[..i];
      assert u == v + [Downcase(s[i])];
      assert v[|v| - 1] == Downcase(s[i - 1]) by {
        assert s[..i][..i - 1] == s[..i - 1];
      }
      assert r[|u| - 2] == u[|u| - 2];
    }
    assert r[|u| - 1] == u[|u| - 1];
  }

  function DigitChar(d: nat): (c: char)
    requires d < 10
    ensures IsDigit(c)
  {
    ('0' as int + d) as char
  }

  /** `Integer#to_s`: the decimal digits of `n`, most significant first. */
  function DecimalString(n: nat): (r: string)
    ensures |r| >= 1
    ensures forall k :: 0 <= k < |r| ==> IsDigit(r[k])
    decreases n
  {
    if n < 10 then [DigitChar(n)] else DecimalString(n / 10) + [DigitChar(n % 10)]
  }

  /** The number a string of decimal digits denotes. */
  function DecimalValue(s: string): nat
    requires forall k :: 0 <= k < |s| ==> IsDigit(s[k])
  {
    if s == [] then 0
    else
      assert IsDigit(s[|s| - 1]);
      DecimalValue(s[..|s| - 1]) * 10 + (s[|s| - 1] as int - '0' as int)
  }

  lemma {:induction false} DecimalRoundTrip(n: nat)
    ensures DecimalValue(DecimalString(n)) == n
    decreases n
  {
    var r := DecimalString(n);
    if n >= 10 {
      DecimalRoundTrip(n / 10);
      assert r[..|r| - 1] == DecimalString(n / 10);
    }
  }

  /** `"#{self.class.name.underscore}_#{id}"`. */
  function TaskId(className: string, id: nat): string
  {
    Underscore(className) + "_" + DecimalString(id)
  }

  /** Within one class, the dedup key names exactly one service: two
      services with the same key have the same id. */
  lemma TaskIdDeterminesService(className: string, id1: nat, id2: nat)
    requires TaskId(className, id1) == TaskId(className, id2)
    ensures id1 == id2
  {
    var prefix := Underscore(className) + "_";
    var t1, t2 := TaskId(className, id1), TaskId(className, id2);
    assert t1[|prefix|..] == DecimalString(id1);
    assert t2[|prefix|..] == DecimalString(id2);
    DecimalRoundTrip(id1);
    DecimalRoundTrip(id2);
  }

  /** The key ends in the id's digits after the last underscore, and the
      part before holds no upper-case letter. */
  lemma TaskIdShape(className: string, id: nat)
    ensures var t := TaskId(className, id);
      var n := |Underscore(className)|;
      && t[n] == '_'
      && (forall k :: 0 <= k < n ==> !IsUpper(t[k]))
      && (forall k :: n < k < |t| ==> IsDigit(t[k]))
      && DecimalValue(t[n + 1..]) == id
  {
    var t := TaskId(className, id);
    var n := |Underscore(className)|;
    assert t[n + 1..] == DecimalString(id);
    DecimalRoundTrip(id);
  }
}
