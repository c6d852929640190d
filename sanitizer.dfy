/**
 * `_sanitize_text` of backend/quiz_engine.py: remove every `<[^>]+>` span (scanning left to
 * right, as `re.sub` does), drop the control characters \x00-\x08, \x0b, \x0c, \x0e-\x1f
 * and \x7f, then strip surrounding whitespace as `str.strip()` does.
 */
module Sanitizer {
  import opened Common

  predicate IsControl(c: char) {
    var n := c as int;
    n <= 8 || n == 11 || n == 12 || (14 <= n <= 31) || n == 127
  }

  /** `str.isspace` for one character. */
  predicate IsSpace(c: char) {
    var n := c as int;
    (9 <= n <= 13) || (28 <= n <= 32) || n == 133 || n == 160 || n == 5760
    || (8192 <= n <= 8202) || n == 8232 || n == 8233 || n == 8239 || n == 8287 || n == 12288
  }

  predicate NoControls(s: string) {
    forall i :: 0 <= i < |s| ==> !IsControl(s[i])
  }

  /** Every `<` is either directly followed by `>` or has no `>` after it: no `<[^>]+>` span. */
  predicate TagFree(s: string) {
    forall i :: 0 <= i < |s| && s[i] == '<' ==> (i + 1 < |s| && s[i + 1] == '>') || '>' !in s[i + 1..]
  }

  predicate Trimmed(s: string) {
    s == [] || (!IsSpace(s[0]) && !IsSpace(s[|s| - 1]))
  }

  // ----- tag removal -----

  /** The position of the first `>` in `s`. */
  function FirstGt(s: string): (r: Option<nat>)
    ensures r.Some? ==> r.value < |s| && s[r.value] == '>' && '>' !in s[..r.value]
    ensures r.None? <==> '>' !in s
  {
    if s == [] then None
    else if s[0] == '>' then Some(0)
    else match FirstGt(s[1..])
      case None => None
      case Some(k) => (assert s[..k + 1] == [s[0]] + s[1..][..k]; Some(k + 1))
  }

  /** The length of the `<[^>]+>` match starting at the first character of `s`, if any. */
  function TagAt(s: string): (r: Option<nat>)
    ensures r.Some? ==> 3 <= r.value <= |s|
  {
    if s == [] || s[0] != '<' then None
    else match FirstGt(s[1..])
      case None => None
      case Some(k) => if k >= 1 then Some(k + 2) else None
  }

  /** `re.sub(r'<[^>]+>', '', s)`. */
  function StripTags(s: string): string
    decreases |s|
  {
    if s == [] then []
    else match TagAt(s)
      case Some(n) => StripTags(s[n..])
      case None => [s[0]] + StripTags(s[1..])
  }

  /** Text before the first `<` is kept as it is; removal only starts at a `<`. */
  lemma {:induction false} StripTagsKeepsText(a: string, b: string)
    requires '<' !in a
    ensures StripTags(a + b) == a + StripTags(b)
    decreases |a|
  {
    if a != [] {
      var s := a + b;
      assert s[0] == a[0] && s[1..] == a[1..] + b;
      assert a[0] in a;
      assert TagAt(s) == None;
      assert forall x :: x in a[1..] ==> x in a;
      StripTagsKeepsText(a[1..], b);
      assert [a[0]] + a[1..] == a;
    } else {
      assert a + b == b;
    }
  }

  /** A complete `<...>` span (at least one character, no `>` inside) is removed with nothing else. */
  lemma StripTagsDropsTag(t: string, b: string)
    requires t != [] && '>' !in t
    ensures StripTags(['<'] + t + ['>'] + b) == StripTags(b)
  {
    var s := ['<'] + t + ['>'] + b;
    var rest := t + ['>'] + b;
    assert s[1..] == rest;
    assert rest[|t|] == '>';
    assert forall j :: 0 <= j < |t| ==> rest[j] == t[j];
    assert rest[..|t| + 1][|t|] == '>';
    assert FirstGt(rest) == Some(|t|);
    assert TagAt(s) == Some(|t| + 2);
    assert s[|t| + 2..] == b;
  }

  lemma {:induction false} StripTagsKeepsNoGt(s: string)
    requires '>' !in s
    ensures '>' !in StripTags(s)
    decreases |s|
  {
    if s != [] {
      assert forall i :: 0 <= i < |s[1..]| ==> s[1..][i] == s[1 + i];
      assert TagAt(s).None?;
      StripTagsKeepsNoGt(s[1..]);
    }
  }

  /** How `TagFree` decomposes over the first character. */
  lemma TagFreeCons(c: char, t: string)
    ensures TagFree([c] + t) <==>
      TagFree(t) && (c == '<' ==> (|t| > 0 && t[0] == '>') || '>' !in t)
  {
    var s := [c] + t;
    assert s[1..] == t;
    if TagFree(s) {
      if c == '<' {
        assert s[0] == '<';
      }
      forall i | 0 <= i < |t| && t[i] == '<'
        ensures (i + 1 < |t| && t[i + 1] == '>') || '>' !in t[i + 1..]
      {
        assert s[i + 1] == '<';
        assert s[i + 2..] == t[i + 1..];
      }
    }
    if TagFree(t) && (c == '<' ==> (|t| > 0 && t[0] == '>') || '>' !in t) {
      forall i | 0 <= i < |s| && s[i] == '<'
        ensures (i + 1 < |s| && s[i + 1] == '>') || '>' !in s[i + 1..]
      {
        if i > 0 {
          assert t[i - 1] == '<';
          assert s[i + 1..] == t[i..];
        }
      }
    }
  }

  /** What is left after tag removal contains no tag. */
  lemma {:induction false} StripTagsTagFree(s: string)
    ensures TagFree(StripTags(s))
    decreases |s|
  {
    if s != [] {
      match TagAt(s)
      case Some(n) =>
        StripTagsTagFree(s[n..]);
      case None =>
        var t := s[1..];
        StripTagsTagFree(t);
        if s[0] == '<' {
          if '>' in t {
            var k := FirstGt(t).value;
            assert k == 0;
            assert TagAt(t) == None;
            assert StripTags(t) == [t[0]] + StripTags(t[1..]);
          } else {
            StripTagsKeepsNoGt(t);
          }
        }
        TagFreeCons(s[0], StripTags(t));
    }
  }

  /** Text without tags is left alone by tag removal. */
  lemma {:induction false} StripTagsFixesTagFree(s: string)
    requires TagFree(s)
    ensures StripTags(s) == s
    decreases |s|
  {
    if s != [] {
      assert s == [s[0]] + s[1..];
      TagFreeCons(s[0], s[1..]);
      if s[0] == '<' && '>' in s[1..] {
        assert FirstGt(s[1..]) == Some(0);
      }
      assert TagAt(s).None?;
      StripTagsFixesTagFree(s[1..]);
    }
  }

  // ----- control characters -----

  /** `re.sub(r'[\x00-\x08\x0b\x0c\x0e-\x1f\x7f]', '', s)`. */
  function RemoveControls(s: string): (r: string)
    ensures NoControls(r) && |r| <= |s|
  {
    if s == [] then []
    else if IsControl(s[0]) then RemoveControls(s[1..])
    else [s[0]] + RemoveControls(s[1..])
  }

  /** Removing control characters works character by character: it distributes over concatenation. */
  lemma {:induction false} RemoveControlsConcat(a: string, b: string)
    ensures RemoveControls(a + b) == RemoveControls(a) + RemoveControls(b)
    decreases |a|
  {
    if a == [] {
      assert a + b == b;
    } else {
      assert (a + b)[0] == a[0] && (a + b)[1..] == a[1..] + b;
      RemoveControlsConcat(a[1..], b);
    }
  }

  /** A single character is dropped exactly when it is a control character, and kept otherwise. */
  lemma RemoveControlsOne(c: char)
    ensures RemoveControls([c]) == if IsControl(c) then [] else [c]
  {
    assert [c][1..] == [];
  }

  lemma {:induction false} RemoveControlsKeepsTagFree(s: string)
    requires TagFree(s)
    ensures TagFree(RemoveControls(s))
  {
    if s != [] {
      var t := s[1..];
      assert s == [s[0]] + t;
      TagFreeCons(s[0], t);
      RemoveControlsKeepsTagFree(t);
      if !IsControl(s[0]) {
        if s[0] == '<' {
          if '>' in t {
            assert t[0] == '>';
            assert RemoveControls(t) == [t[0]] + RemoveControls(t[1..]);
          } else {
            RemoveControlsKeepsNoGt(t);
          }
        }
        TagFreeCons(s[0], RemoveControls(t));
      }
    }
  }

  lemma {:induction false} RemoveControlsKeepsNoGt(s: string)
    requires '>' !in s
    ensures '>' !in RemoveControls(s)
  {
    if s != [] {
      assert forall i :: 0 <= i < |s[1..]| ==> s[1..][i] == s[1 + i];
      RemoveControlsKeepsNoGt(s[1..]);
    }
  }

  lemma {:induction false} RemoveControlsFixesClean(s: string)
    requires NoControls(s)
    ensures RemoveControls(s) == s
  {
    if s != [] {
      RemoveControlsFixesClean(s[1..]);
    }
  }

  // ----- whitespace -----

  /** `str.lstrip()`: drops exactly the leading whitespace. */
  function TrimLeft(s: string): (r: string)
    ensures |r| <= |s| && r == s[|s| - |r|..]
    ensures r == [] || !IsSpace(r[0])
    ensures forall i :: 0 <= i < |s| - |r| ==> IsSpace(s[i])
  {
    if s != [] && IsSpace(s[0]) then TrimLeft(s[1..]) else s
  }

  /** `str.rstrip()`: drops exactly the trailing whitespace. */
  function TrimRight(s: string): (r: string)
    ensures |r| <= |s| && r == s[..|r|]
    ensures r == [] || !IsSpace(r[|r| - 1])
    ensures forall i :: |r| <= i < |s| ==> IsSpace(s[i])
  {
    if s != [] && IsSpace(s[|s| - 1]) then TrimRight(s[..|s| - 1]) else s
  }

  /** `str.strip()`. */
  function Strip(s: string): string {
    TrimRight(TrimLeft(s))
  }

  lemma TagFreeSlice(s: string, a: nat, b: nat)
    requires TagFree(s) && a <= b <= |s|
    ensures TagFree(s[a..b])
  {
    var t := s[a..b];
    forall i | 0 <= i < |t| && t[i] == '<'
      ensures (i + 1 < |t| && t[i + 1] == '>') || '>' !in t[i + 1..]
    {
      assert s[a + i] == '<';
      if i + 1 < |t| {
        assert t[i + 1] == s[a + i + 1];
        if '>' in t[i + 1..] {
          var j :| 0 <= j < |t[i + 1..]| && t[i + 1..][j] == '>';
          assert s[a + i + 1..][j] == '>';
        }
      }
    }
  }

  lemma NoControlsSlice(s: string, a: nat, b: nat)
    requires NoControls(s) && a <= b <= |s|
    ensures NoControls(s[a..b])
  {
    assert forall i :: 0 <= i < b - a ==> s[a..b][i] == s[a + i];
  }

  // ----- the whole sanitiser -----

  /** `_sanitize_text`. */
  function SanitizeText(s: string): string {
    Strip(RemoveControls(StripTags(s)))
  }

  /** Sanitised text has no control character, no tag and no surrounding whitespace. */
  lemma SanitizeTextClean(s: string)
    ensures var r := SanitizeText(s);
      NoControls(r) && TagFree(r) && Trimmed(r)
  {
    StripTagsTagFree(s);
    RemoveControlsKeepsTagFree(StripTags(s));
    StripKeepsClean(RemoveControls(StripTags(s)));
  }

  /** Stripping whitespace keeps text free of controls and tags, and leaves it trimmed. */
  lemma StripKeepsClean(t: string)
    requires NoControls(t) && TagFree(t)
    ensures var r := Strip(t);
      NoControls(r) && TagFree(r) && Trimmed(r)
  {
    var l := TrimLeft(t);
    SuffixKeepsClean(t, |t| - |l|);
    PrefixKeepsClean(l, |TrimRight(l)|);
    StripTrimmed(t);
  }

  lemma SuffixKeepsClean(t: string, a: nat)
    requires NoControls(t) && TagFree(t) && a <= |t|
    ensures NoControls(t[a..]) && TagFree(t[a..])
  {
    TagFreeSlice(t, a, |t|);
    NoControlsSlice(t, a, |t|);
    assert t[a..|t|] == t[a..];
  }

  lemma PrefixKeepsClean(t: string, b: nat)
    requires NoControls(t) && TagFree(t) && b <= |t|
    ensures NoControls(t[..b]) && TagFree(t[..b])
  {
    TagFreeSlice(t, 0, b);
    NoControlsSlice(t, 0, b);
    assert t[0..b] == t[..b];
  }

  /** `str.strip()` leaves no whitespace at either end. */
  lemma StripTrimmed(t: string)
    ensures Trimmed(Strip(t))
  {
    var l := TrimLeft(t);
    var r := TrimRight(l);
    if r != [] {
      assert r[0] == l[0];
    }
  }

  /** Text that is already clean comes back unchanged. */
  lemma SanitizeTextFixesClean(s: string)
    requires NoControls(s) && TagFree(s) && Trimmed(s)
    ensures SanitizeText(s) == s
  {
    StripTagsFixesTagFree(s);
    RemoveControlsFixesClean(s);
  }

  /** Sanitising twice is sanitising once. */
  lemma SanitizeTextIdempotent(s: string)
    ensures SanitizeText(SanitizeText(s)) == SanitizeText(s)
  {
    SanitizeTextClean(s);
    SanitizeTextFixesClean(SanitizeText(s));
  }

  /** Text with no `<` and no control character loses only its surrounding whitespace. */
  lemma SanitizeTextKeepsPlainText(s: string)
    requires '<' !in s && NoControls(s)
    ensures SanitizeText(s) == Strip(s)
  {
    StripTagsKeepsText(s, []);
    assert s + [] == s;
    RemoveControlsFixesClean(s);
  }

  /** `s[:n]`. */
  function Truncate(s: string, n: nat): (r: string)
    ensures r <= s
    ensures |r| == if |s| <= n then |s| else n
  {
    if |s| <= n then s else s[..n]
  }

  /**
   * Cutting sanitised text to a maximum length keeps it free of controls and tags and of
   * leading whitespace; trailing whitespace can reappear at the cut.
   */
  lemma TruncatedStaysClean(s: string, n: nat)
    ensures var r := Truncate(SanitizeText(s), n);
      |r| <= n && NoControls(r) && TagFree(r) && (r == [] || !IsSpace(r[0]))
  {
    var t := SanitizeText(s);
    SanitizeTextClean(s);
    var r := Truncate(t, n);
    TagFreeSlice(t, 0, |r|);
    NoControlsSlice(t, 0, |r|);
  }

  /** Trailing whitespace at the cut: "a b" cut to 2 characters ends in a space. */
  lemma TruncationCanEndInSpace()
    ensures var r := Truncate(SanitizeText("a b"), 2); |r| == 2 && IsSpace(r[1])
  {
    var s := "a b";
    assert s[0] == 'a' && s[1] == ' ' && s[2] == 'b';
    assert NoControls(s);
    assert TagFree(s);
    SanitizeTextFixesClean(s);
  }
}
