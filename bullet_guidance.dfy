/**
 * Inline guidance for one experience or project bullet: it should open with an action
 * verb from a fixed list and carry a measurable number. The hints never block anything.
 */
module BulletGuidance {
  import opened Text
  import AtsScoring

  /** The accepted opening verbs, all lower case. */
  const ActionVerbs: seq<string> := [
    "built", "developed", "designed", "implemented", "led",
    "improved", "created", "optimized", "automated", "managed",
    "deployed", "architected", "configured", "integrated", "launched",
    "refactored", "migrated", "scaled", "delivered", "resolved",
    "mentored", "coordinated", "established", "reduced", "increased"
  ]

  const VerbHint := "Start with a strong action verb."
  const NumbersHint := "Add measurable impact (numbers)."

  predicate IsLowerLetter(c: char) {
    'a' <= c <= 'z'
  }

  /** A non-empty word of lower-case ASCII letters. */
  predicate LowerWord(v: string) {
    v != [] && forall k :: 0 <= k < |v| ==> IsLowerLetter(v[k])
  }

  lemma VerbsLower0()
    ensures forall i :: 0 <= i < 5 ==> LowerWord(ActionVerbs[i])
  {
  }

  lemma VerbsLower1()
    ensures forall i :: 5 <= i < 10 ==> LowerWord(ActionVerbs[i])
  {
  }

  lemma VerbsLower2()
    ensures forall i :: 10 <= i < 15 ==> LowerWord(ActionVerbs[i])
  {
  }

  lemma VerbsLower3()
    ensures forall i :: 15 <= i < 20 ==> LowerWord(ActionVerbs[i])
  {
  }

  lemma VerbsLower4()
    ensures forall i :: 20 <= i < 25 ==> LowerWord(ActionVerbs[i])
  {
  }

  /** There are 25 verbs, each a lower-case word. */
  lemma ActionVerbsShape()
    ensures |ActionVerbs| == 25
    ensures forall v :: v in ActionVerbs ==> LowerWord(v)
  {
    VerbsLower0();
    VerbsLower1();
    VerbsLower2();
    VerbsLower3();
    VerbsLower4();
  }

  /** No verb is listed twice. */
  lemma ActionVerbsDistinct()
    ensures forall i, j :: 0 <= i < j < |ActionVerbs| ==> ActionVerbs[i] != ActionVerbs[j]
  {
  }

  /** `hasNumber`: the same pattern as the ATS impact check. */
  predicate HasNumber(text: string) {
    AtsScoring.HasNumbers(text)
  }

  /** `text.trim().split(/\s+/)[0].toLowerCase()` */
  function FirstWord(text: string): (w: string)
    requires !IsBlank(text)
    ensures w != [] && forall k :: 0 <= k < |w| ==> !IsWs(w[k])
    ensures var t := Trim(text);
      && |w| <= |t| && w == ToLower(t[..|w|])
      && (|w| < |t| ==> IsWs(t[|w|]))
  {
    var t := Trim(text);
    FirstPieceIsWord(t);
    var first := SplitWs(t)[0];
    assert forall k :: 0 <= k < |first| ==> !IsWs(LowerChar(first[k]));
    ToLower(first)
  }

  /** `startsWithVerb`: blank text passes; otherwise the first word, lower-cased, must be
      one of the action verbs. */
  predicate StartsWithVerb(text: string) {
    IsBlank(text) || FirstWord(text) in ActionVerbs
  }

  /** The word v opens t, in any letter case, and ends at white space or the end of t. */
  predicate OpensWith(t: string, v: string) {
    |v| <= |t| && ToLower(t[..|v|]) == v && (|v| == |t| || IsWs(t[|v|]))
  }

  /** A bullet starts with a verb exactly when it is blank or its trimmed text opens
      with one of the action verbs as a whole word, in any letter case. */
  lemma StartsWithVerbIff(text: string)
    ensures StartsWithVerb(text) <==>
      IsBlank(text) || exists v :: v in ActionVerbs && OpensWith(Trim(text), v)
  {
    if !IsBlank(text) {
      var t := Trim(text);
      var w := FirstWord(text);
      if w in ActionVerbs {
        assert OpensWith(t, w);
      }
      if v :| v in ActionVerbs && OpensWith(t, v) {
        ActionVerbsShape();
        OpeningWordIsFirstWord(text, v);
      }
    }
  }

  lemma OpeningWordIsFirstWord(text: string, v: string)
    requires !IsBlank(text)
    requires v != [] && forall c :: c in v ==> !IsWs(c)
    requires OpensWith(Trim(text), v)
    ensures FirstWord(text) == v
  {
    var t := Trim(text);
    var w := FirstWord(text);
    assert forall k :: 0 <= k < |v| ==> !IsWs(t[k]) by {
      forall k | 0 <= k < |v|
        ensures !IsWs(t[k])
      {
        assert v[k] in v;
        assert LowerChar(t[k]) == v[k];
      }
    }
  }

  /** `getBulletSuggestions`: nothing for blank text; otherwise a verb hint when the
      first word is not an action verb, then a numbers hint when no measurable number
      appears. */
  method GetBulletSuggestions(text: string) returns (hints: seq<string>)
    ensures IsBlank(text) ==> hints == []
    ensures VerbHint in hints <==> !StartsWithVerb(text)
    ensures NumbersHint in hints <==> !IsBlank(text) && !HasNumber(text)
    ensures forall h :: h in hints ==> h == VerbHint || h == NumbersHint
    ensures |hints| <= 2 && (|hints| == 2 ==> hints == [VerbHint, NumbersHint])
  {
    if IsBlank(text) {
      return [];
    }
    hints := [];
    if !StartsWithVerb(text) {
      hints := hints + [VerbHint];
    }
    if !HasNumber(text) {
      hints := hints + [NumbersHint];
    }
  }

  // ---------------------------------------------------------------------------
  // Concrete bullets

  /** "built" is the only action verb that starts with 'b'. */
  lemma OnlyVerbOnB()
    ensures ActionVerbs[0] == "built"
    ensures forall i :: 1 <= i < |ActionVerbs| ==> ActionVerbs[i][0] != 'b'
  {
  }

  /** The first word of a bullet that opens, after white space, with the word w. */
  lemma FirstWordOf(pad: string, w: string, rest: string)
    requires AllWs(pad, 0, |pad|)
    requires w != [] && forall k :: 0 <= k < |w| ==> !IsWs(w[k])
    requires rest == [] || IsWs(rest[0])
    ensures !IsBlank(pad + w + rest)
    ensures FirstWord(pad + w + rest) == ToLower(w)
  {
    var text := pad + w + rest;
    TrimOpening(pad, w, rest);
    LowerWordOpens(Trim(text), w);
    OpeningWordIsFirstWord(text, ToLower(w));
  }

  lemma LowerWordOpens(t: string, w: string)
    requires forall k :: 0 <= k < |w| ==> !IsWs(w[k])
    requires |w| <= |t| && t[..|w|] == w && (|w| < |t| ==> IsWs(t[|w|]))
    ensures OpensWith(t, ToLower(w))
    ensures forall c :: c in ToLower(w) ==> !IsWs(c)
  {
  }

  /** An action verb in any letter case, after any white space and followed by white
      space or the end, is accepted. */
  lemma AnyCaseVerbAccepted(pad: string, w: string, rest: string)
    requires AllWs(pad, 0, |pad|)
    requires rest == [] || IsWs(rest[0])
    requires ToLower(w) in ActionVerbs
    ensures StartsWithVerb(pad + w + rest)
  {
    ActionVerbsShape();
    var v := ToLower(w);
    forall k | 0 <= k < |w|
      ensures !IsWs(w[k])
    {
      assert v[k] in v && v[k] == LowerChar(w[k]);
    }
    FirstWordOf(pad, w, rest);
  }

  /** A first word that opens with 'b' or 'B' is a verb only when it is "built" in
      some letter case, so one of another length is never accepted. */
  lemma OtherWordOnBRejected(pad: string, w: string, rest: string)
    requires AllWs(pad, 0, |pad|)
    requires w != [] && forall k :: 0 <= k < |w| ==> !IsWs(w[k])
    requires w[0] == 'b' || w[0] == 'B'
    requires |w| != |"built"|
    requires rest == [] || IsWs(rest[0])
    ensures !StartsWithVerb(pad + w + rest)
  {
    FirstWordOf(pad, w, rest);
    NoOtherVerbOnB(ToLower(w));
  }

  lemma NoOtherVerbOnB(f: string)
    requires f != [] && f[0] == 'b' && |f| != |"built"|
    ensures f !in ActionVerbs
  {
    OnlyVerbOnB();
    forall i | 0 <= i < |ActionVerbs|
      ensures ActionVerbs[i] != f
    {
      if i == 0 {
        assert |ActionVerbs[i]| == 5;
      } else {
        assert ActionVerbs[i][0] != f[0];
      }
    }
  }
}
