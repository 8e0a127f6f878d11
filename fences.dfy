/** The reply cleaner of utils.py: `parse_json` deletes every "```json" marker, then every
    "```" marker, trims surrounding whitespace and hands what is left to a JSON decoder.
    The decoder (Python's `json.loads`) is a parameter: a partial function from text to a
    JSON value. */
module Fences {
  import opened Values

  /** The two markers `parse_json` deletes, in the order it deletes them. */
  const JsonFence: string := "```json"
  const Fence: string := "```"

  /** A JSON decoder: None when it rejects the text. */
  type Decoder = string -> Option<Json>

  /** `p` occurs in `t` starting at index `i`. */
  predicate OccursAt(t: string, p: string, i: int) {
    0 <= i && i + |p| <= |t| && t[i..i + |p|] == p
  }

  /** Python's `p in t`. */
  predicate Contains(t: string, p: string) {
    exists i | 0 <= i <= |t| - |p| :: OccursAt(t, p, i)
  }

  predicate NoBackticks(t: string) {
    forall i :: 0 <= i < |t| ==> t[i] != '`'
  }

  /** Python's `str.isspace` for one character: the Unicode characters whose
      bidirectional class is WS, B or S, or whose category is Zs. */
  predicate IsSpace(c: char) {
    ('\U{0009}' <= c <= '\U{000D}') || ('\U{001C}' <= c <= '\U{001F}') || c == ' '
    || c == '\U{0085}' || c == '\U{00A0}' || c == '\U{1680}'
    || ('\U{2000}' <= c <= '\U{200A}') || c == '\U{2028}' || c == '\U{2029}'
    || c == '\U{202F}' || c == '\U{205F}' || c == '\U{3000}'
  }

  /** No whitespace at either end: what `str.strip()` leaves. */
  predicate Trimmed(t: string) {
    t == [] || (!IsSpace(t[0]) && !IsSpace(t[|t| - 1]))
  }

  /** `s.replace(pat, "")`: scanning left to right, every non-overlapping occurrence of
      `pat` is dropped. */
  function DeleteAll(s: string, pat: string): (r: string)
    requires |pat| > 0
    ensures |r| <= |s|
    decreases |s|
  {
    if |s| < |pat| then s
    else if s[..|pat|] == pat then DeleteAll(s[|pat|..], pat)
    else [s[0]] + DeleteAll(s[1..], pat)
  }

  /** `s.lstrip()`: exactly the leading whitespace is removed. */
  function TrimStart(s: string): (r: string)
    ensures |r| <= |s| && r == s[|s| - |r|..]
    ensures r == [] || !IsSpace(r[0])
    ensures forall i :: 0 <= i < |s| - |r| ==> IsSpace(s[i])
  {
    if |s| > 0 && IsSpace(s[0]) then TrimStart(s[1..]) else s
  }

  /** `s.rstrip()`: exactly the trailing whitespace is removed. */
  function TrimEnd(s: string): (r: string)
    ensures |r| <= |s| && r == s[..|r|]
    ensures r == [] || !IsSpace(r[|r| - 1])
    ensures forall i :: |r| <= i < |s| ==> IsSpace(s[i])
  {
    if |s| > 0 && IsSpace(s[|s| - 1]) then TrimEnd(s[..|s| - 1]) else s
  }

  /** `r` is the slice of `s` starting at `a`, and everything of `s` around it is
      whitespace. */
  ghost predicate StripsTo(s: string, a: int, r: string) {
    0 <= a && a + |r| <= |s| && r == s[a..a + |r|]
    && forall i :: 0 <= i < a || a + |r| <= i < |s| ==> IsSpace(s[i])
  }

  /** `s.strip()`: a slice of the input with exactly the whitespace at both ends removed. */
  function Trim(s: string): (r: string)
    ensures Trimmed(r)
    ensures exists a :: StripsTo(s, a, r)
  {
    TrimIsStrip(s);
    TrimEnd(TrimStart(s))
  }

  lemma TrimIsStrip(s: string)
    ensures Trimmed(TrimEnd(TrimStart(s)))
    ensures StripsTo(s, |s| - |TrimStart(s)|, TrimEnd(TrimStart(s)))
  {
    SpaceAroundSlice(s, TrimStart(s), TrimEnd(TrimStart(s)));
  }

  /** Cutting leading whitespace off `s` (leaving `u`) and then trailing whitespace off `u`
      (leaving `r`) leaves a slice of `s` with only whitespace around it. */
  lemma SpaceAroundSlice(s: string, u: string, r: string)
    requires |u| <= |s| && u == s[|s| - |u|..]
    requires |r| <= |u| && r == u[..|r|]
    requires forall i :: 0 <= i < |s| - |u| ==> IsSpace(s[i])
    requires forall i :: |r| <= i < |u| ==> IsSpace(u[i])
    requires u == [] || !IsSpace(u[0])
    requires r == [] || !IsSpace(r[|r| - 1])
    ensures Trimmed(r)
    ensures StripsTo(s, |s| - |u|, r)
  {
    assert r != [] ==> r[0] == u[0];
    var a := |s| - |u|;
    forall i | a + |r| <= i < |s|
      ensures IsSpace(s[i])
    {
      assert s[i] == u[i - a];
    }
  }

  /** The text `parse_json` hands to the decoder: no fence is left in it and it has no
      surrounding whitespace. */
  function Strip(s: string): (r: string)
    ensures !Contains(r, Fence)
    ensures Trimmed(r)
  {
    DeleteLeavesNoFence(DeleteAll(s, JsonFence));
    TrimKeepsNoFence(DeleteAll(DeleteAll(s, JsonFence), Fence));
    Trim(DeleteAll(DeleteAll(s, JsonFence), Fence))
  }

  /** `parse_json`: decode the stripped text; when the decoder rejects it, raise a
      ValueError whose message embeds the ORIGINAL text, markers and all. */
  function ParseJson(s: string, decode: Decoder): (r: Result<Json>)
    ensures r.Ok? <==> decode(Strip(s)).Some?
    ensures r.Ok? ==> r.value == decode(Strip(s)).value
    ensures r.Err? ==> r.error == ValueError("Invalid JSON: " + s)
  {
    match decode(Strip(s))
    case Some(v) => Ok(v)
    case None => Err(ValueError("Invalid JSON: " + s))
  }

  /** The wrapping a model typically puts around its JSON reply. */
  function Wrap(p: string): string {
    JsonFence + "\n" + p + "\n" + Fence
  }

  // ---------------------------------------------------------------------------------------
  // Deleting "```" leaves no "```" behind

  /** Three backticks at index `i` of `t`. */
  predicate TicksAt(t: string, i: int) {
    0 <= i && i + 3 <= |t| && t[i] == '`' && t[i + 1] == '`' && t[i + 2] == '`'
  }

  lemma FenceAtIff(t: string, i: int)
    ensures OccursAt(t, Fence, i) <==> TicksAt(t, i)
  {
    if TicksAt(t, i) {
      assert t[i..i + 3] == Fence;
    }
  }

  /** If what survives deletion starts with a backtick, so did the input. */
  lemma DeletedStartsWithTick(t: string)
    requires |DeleteAll(t, Fence)| >= 1 && DeleteAll(t, Fence)[0] == '`'
    ensures |t| >= 1 && t[0] == '`'
  {
  }

  /** If what survives deletion starts with two backticks, so did the input. */
  lemma DeletedStartsWithTwoTicks(t: string)
    requires |DeleteAll(t, Fence)| >= 2
    requires DeleteAll(t, Fence)[0] == '`' && DeleteAll(t, Fence)[1] == '`'
    ensures |t| >= 2 && t[0] == '`' && t[1] == '`'
  {
    if |t| >= |Fence| && t[..|Fence|] != Fence {
      DeletedStartsWithTick(t[1..]);
    }
  }

  /** Putting one character in front of a fence-free text makes a fence only when that
      character and the text's first two are all backticks. */
  lemma ConsNoFence(c: char, t: string)
    requires !Contains(t, Fence)
    requires !(c == '`' && |t| >= 2 && t[0] == '`' && t[1] == '`')
    ensures !Contains([c] + t, Fence)
  {
    var r := [c] + t;
    forall i | 0 <= i <= |r| - |Fence| ensures !OccursAt(r, Fence, i) {
      FenceAtIff(r, i);
      if i > 0 {
        FenceAtIff(t, i - 1);
        assert !OccursAt(t, Fence, i - 1);
      }
    }
  }

  /** Python's left-to-right, non-overlapping `replace` cannot build a new "```" out of the
      pieces around a deleted one. */
  lemma {:induction false} DeleteLeavesNoFence(s: string)
    ensures !Contains(DeleteAll(s, Fence), Fence)
    decreases |s|
  {
    if |s| < |Fence| {
      assert !Contains(s, Fence);
    } else if s[..|Fence|] == Fence {
      DeleteLeavesNoFence(s[|Fence|..]);
    } else {
      var t := DeleteAll(s[1..], Fence);
      DeleteLeavesNoFence(s[1..]);
      if s[0] == '`' && |t| >= 2 && t[0] == '`' && t[1] == '`' {
        DeletedStartsWithTwoTicks(s[1..]);
        assert false;
      }
      ConsNoFence(s[0], t);
    }
  }

  lemma SliceKeepsNoFence(u: string, a: int, b: int)
    requires 0 <= a <= b <= |u|
    requires !Contains(u, Fence)
    ensures !Contains(u[a..b], Fence)
  {
    var v := u[a..b];
    forall i | 0 <= i <= |v| - |Fence| ensures !OccursAt(v, Fence, i) {
      FenceAtIff(v, i);
      FenceAtIff(u, a + i);
      assert !OccursAt(u, Fence, a + i);
    }
  }

  /** `strip()` removes characters at the ends only, so it cannot create a fence. */
  lemma TrimKeepsNoFence(u: string)
    requires !Contains(u, Fence)
    ensures !Contains(Trim(u), Fence)
  {
    var t := TrimStart(u);
    SliceKeepsNoFence(u, |u| - |t|, |u|);
    assert u[|u| - |t|..|u|] == t;
    SliceKeepsNoFence(t, 0, |TrimEnd(t)|);
    assert t[0..|TrimEnd(t)|] == TrimEnd(t);
  }

  // ---------------------------------------------------------------------------------------
  // When deletion and trimming change nothing

  /** Deleting a marker that does not occur is the identity. */
  lemma {:induction false} DeleteAbsent(t: string, pat: string)
    requires |pat| > 0 && !Contains(t, pat)
    ensures DeleteAll(t, pat) == t
    decreases |t|
  {
    if |t| >= |pat| {
      assert !OccursAt(t, pat, 0);
      forall i | 0 <= i <= |t[1..]| - |pat| ensures !OccursAt(t[1..], pat, i) {
        assert !OccursAt(t, pat, i + 1);
        assert t[1..][i..i + |pat|] == t[i + 1..i + 1 + |pat|];
      }
      DeleteAbsent(t[1..], pat);
      assert [t[0]] + t[1..] == t;
    }
  }

  /** A backtick-free prefix survives the deletion of a marker that starts with a
      backtick, untouched. */
  lemma {:induction false} DeleteSkipsTickFree(t: string, u: string, pat: string)
    requires |pat| > 0 && pat[0] == '`' && NoBackticks(t)
    ensures DeleteAll(t + u, pat) == t + DeleteAll(u, pat)
    decreases |t|
  {
    if t == [] {
      assert t + u == u;
    } else {
      var s := t + u;
      if |s| < |pat| {
        DeleteShort(u, pat);
      } else {
        assert s[..|pat|] != pat by { assert s[..|pat|][0] == t[0] != pat[0]; }
        assert s[1..] == t[1..] + u;
        DeleteSkipsTickFree(t[1..], u, pat);
        assert DeleteAll(s, pat) == [t[0]] + (t[1..] + DeleteAll(u, pat));
        assert [t[0]] + t[1..] == t;
      }
    }
  }

  /** Deleting is one left-to-right pass, so the text around a deleted "```json" can join
      into a new "```json" that stays, as it does with `str.replace`. */
  lemma JsonFenceCanReform()
    ensures DeleteAll("```js" + JsonFence + "on", JsonFence) == JsonFence
  {
    var u2 := "js" + JsonFence + "on";
    ReformTail();
    var u3 := ['`'] + u2;
    assert u3[..7][1] != JsonFence[1];
    KeepFirst('`', u2, "json");
    var u4 := ['`'] + u3;
    assert u4[..7][2] != JsonFence[2];
    KeepFirst('`', u3, "`json");
    var u5 := ['`'] + u4;
    assert u5[..7][5] != JsonFence[5];
    KeepFirst('`', u4, "``json");
    assert u5 == "```js" + JsonFence + "on";
  }

  /** The first two characters before the deleted marker are kept. */
  lemma ReformTail()
    ensures DeleteAll("js" + JsonFence + "on", JsonFence) == "json"
  {
    var u0 := JsonFence + "on";
    assert DeleteAll(u0, JsonFence) == "on" by {
      assert u0[..7] == JsonFence && u0[7..] == "on";
    }
    var u1 := ['s'] + u0;
    assert u1[..7][0] != JsonFence[0];
    KeepFirst('s', u0, "on");
    var u2 := ['j'] + u1;
    assert u2[..7][0] != JsonFence[0];
    KeepFirst('j', u1, "son");
    assert u2 == "js" + JsonFence + "on";
  }

  /** One step of the pass: a character where no "```json" starts is kept. */
  lemma KeepFirst(c: char, t: string, rest: string)
    requires DeleteAll(t, JsonFence) == rest
    requires |[c] + t| < 7 || ([c] + t)[..7] != JsonFence
    ensures DeleteAll([c] + t, JsonFence) == [c] + rest
  {
    assert ([c] + t)[1..] == t;
  }

  lemma DeleteShort(u: string, pat: string)
    requires 0 < |pat| && |u| < |pat|
    ensures DeleteAll(u, pat) == u
  {
  }

  lemma TrimKeepsTrimmed(t: string)
    requires Trimmed(t)
    ensures Trim(t) == t
  {
    assert TrimStart(t) == t;
    assert TrimEnd(t) == t;
  }

  // ---------------------------------------------------------------------------------------
  // Properties of parse_json's stripping

  /** Deleting "```json" from a fenced payload removes the opening marker only. */
  lemma WrappedFirstPass(p: string)
    requires NoBackticks(p)
    ensures DeleteAll(Wrap(p), JsonFence) == "\n" + p + "\n" + Fence
  {
    var body := "\n" + p + "\n";
    var w := Wrap(p);
    assert w == JsonFence + (body + Fence);
    assert w[..|JsonFence|] == JsonFence;
    assert w[|JsonFence|..] == body + Fence;
    DeleteSkipsTickFree(body, Fence, JsonFence);
    DeleteShort(Fence, JsonFence);
  }

  /** Deleting "```" from what is left removes the closing marker. */
  lemma WrappedSecondPass(p: string)
    requires NoBackticks(p)
    ensures DeleteAll("\n" + p + "\n" + Fence, Fence) == "\n" + p + "\n"
  {
    var body := "\n" + p + "\n";
    DeleteSkipsTickFree(body, Fence, Fence);
    assert Fence[..|Fence|] == Fence && Fence[|Fence|..] == [];
    assert body + [] == body;
  }

  /** Stripping the newlines around a trimmed payload gives the payload back. */
  lemma TrimNewlines(p: string)
    requires Trimmed(p)
    ensures Trim("\n" + p + "\n") == p
  {
    var body := "\n" + p + "\n";
    assert body[1..] == p + "\n";
    if p == [] {
      assert TrimStart(body[1..]) == [];
    } else {
      assert (p + "\n")[0] == p[0];
      assert TrimStart(body) == p + "\n";
      assert (p + "\n")[..|p|] == p;
      assert TrimEnd(p) == p;
    }
  }

  /** A backtick-free payload with no surrounding whitespace, fenced as "```json\n...\n```",
      strips back to exactly the payload: no stray "json" survives because "```json" is
      deleted before "```". */
  lemma WrappedStripsToPayload(p: string)
    requires NoBackticks(p) && Trimmed(p)
    ensures Strip(Wrap(p)) == p
  {
    WrappedFirstPass(p);
    WrappedSecondPass(p);
    TrimNewlines(p);
  }

  /** Text with no backticks and no surrounding whitespace reaches the decoder unchanged. */
  lemma PlainPassesThrough(p: string)
    requires NoBackticks(p) && Trimmed(p)
    ensures Strip(p) == p
  {
    DeleteSkipsTickFree(p, [], JsonFence);
    assert p + [] == p;
    DeleteSkipsTickFree(p, [], Fence);
    TrimKeepsTrimmed(p);
  }

  /** Stripping twice is stripping once. */
  lemma StripIdempotent(s: string)
    ensures Strip(Strip(s)) == Strip(s)
  {
    CleanStripsToItself(Strip(s));
  }

  /** Text with no "```" and no surrounding whitespace is left as it is by stripping. */
  lemma CleanStripsToItself(t: string)
    requires !Contains(t, Fence) && Trimmed(t)
    ensures Strip(t) == t
  {
    NoFenceNoJsonFence(t);
    DeleteAbsent(t, JsonFence);
    DeleteAbsent(t, Fence);
    TrimKeepsTrimmed(t);
  }

  /** "```json" begins with "```", so text without the one has none of the other. */
  lemma NoFenceNoJsonFence(t: string)
    requires !Contains(t, Fence)
    ensures !Contains(t, JsonFence)
  {
    forall i | OccursAt(t, JsonFence, i) ensures false {
      assert t[i..i + |Fence|] == t[i..i + |JsonFence|][..|Fence|];
      assert OccursAt(t, Fence, i);
    }
  }

  /** Fencing a payload does not change what it decodes to: the decoder sees the same
      text either way. */
  lemma WrappedParsesAsPlain(p: string, decode: Decoder)
    requires NoBackticks(p) && Trimmed(p)
    requires decode(p).Some?
    ensures ParseJson(Wrap(p), decode) == ParseJson(p, decode) == Ok(decode(p).value)
  {
    WrappedStripsToPayload(p);
    PlainPassesThrough(p);
  }
}
