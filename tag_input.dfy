/**
 * The chip input: typed text becomes a tag on Enter, and Backspace on an empty input
 * removes the last tag. The component keeps only the typed text; the tag list belongs
 * to its parent, which it asks to add or to remove a tag.
 */
module TagInput {
  import opened Text

  /** What one key press asks of the parent: `onAdd(tag)`, `onRemove(tag)` or nothing. */
  datatype Request = NoRequest | Add(tag: string) | Remove(tag: string)

  const EnterKey := "Enter"
  const BackspaceKey := "Backspace"

  /** The request `handleKeyDown` makes for a key, given the typed text and the tags. */
  function KeyDownRequest(input: string, tags: seq<string>, key: string): (r: Request)
    ensures r.Add? <==> key == EnterKey && Trim(input) != "" && Trim(input) !in tags
    ensures r.Add? ==> r.tag == Trim(input)
    ensures r.Remove? <==> key == BackspaceKey && input == "" && tags != []
    ensures r.Remove? ==> r.tag == tags[|tags| - 1]
  {
    if key == EnterKey then
      var v := Trim(input);
      if v != "" && v !in tags then Add(v) else NoRequest
    else if key == BackspaceKey && input == "" && |tags| > 0 then
      Remove(tags[|tags| - 1])
    else
      NoRequest
  }

  /** The input field's own state. */
  class TagField {
    var input: string

    constructor ()
      ensures input == ""
    {
      input := "";
    }

    /** `onChange`: the field shows what was typed. */
    method Change(value: string)
      modifies this
      ensures input == value
    {
      input := value;
    }

    /** `handleKeyDown`: Enter always clears the input, whether or not it asks for a
        tag; no other key touches it. */
    method HandleKeyDown(key: string, tags: seq<string>) returns (r: Request)
      modifies this
      ensures r == KeyDownRequest(old(input), tags, key)
      ensures input == if key == EnterKey then "" else old(input)
    {
      var typed := input;
      r := NoRequest;
      if key == EnterKey {
        var val := Trim(input);
        if val != "" && val !in tags {
          r := Add(val);
        }
        input := "";
      }
      if key == BackspaceKey && typed == "" && |tags| > 0 {
        r := Remove(tags[|tags| - 1]);
      }
    }
  }

  // ---------------------------------------------------------------------------
  // The parent's list

  /** A tag is non-empty and has no white space at either end. */
  predicate CleanTag(t: string) {
    t != [] && !IsWs(t[0]) && !IsWs(t[|t| - 1])
  }

  /** No tag twice, and every tag clean. */
  predicate WellFormed(tags: seq<string>) {
    && (forall i, j :: 0 <= i < j < |tags| ==> tags[i] != tags[j])
    && (forall k :: 0 <= k < |tags| ==> CleanTag(tags[k]))
  }

  /** The tags other than t, in order. */
  function Without(tags: seq<string>, t: string): (r: seq<string>)
    ensures forall x :: x in r <==> x in tags && x != t
  {
    if tags == [] then []
    else Without(tags[..|tags| - 1], t) + (if tags[|tags| - 1] == t then [] else [tags[|tags| - 1]])
  }

  /** A parent that appends on `onAdd` and drops the tag on `onRemove`. */
  function Apply(tags: seq<string>, r: Request): seq<string> {
    match r
    case NoRequest => tags
    case Add(t) => tags + [t]
    case Remove(t) => Without(tags, t)
  }

  lemma {:induction false} WithoutAbsent(tags: seq<string>, t: string)
    requires t !in tags
    ensures Without(tags, t) == tags
  {
    if tags != [] {
      WithoutAbsent(tags[..|tags| - 1], t);
    }
  }

  /** In a list without duplicates, removing the last tag by value drops exactly it. */
  lemma RemoveLastDropsLast(tags: seq<string>)
    requires tags != [] && WellFormed(tags)
    ensures Without(tags, tags[|tags| - 1]) == tags[..|tags| - 1]
  {
    var n := |tags|;
    assert tags[n - 1] !in tags[..n - 1] by {
      forall i | 0 <= i < n - 1
        ensures tags[i] != tags[n - 1]
      {
      }
    }
    WithoutAbsent(tags[..n - 1], tags[n - 1]);
  }

  /** An added tag is the trimmed input: never blank and never with white space at
      either end. */
  lemma AddedTagIsClean(input: string, tags: seq<string>, key: string)
    requires KeyDownRequest(input, tags, key).Add?
    ensures CleanTag(KeyDownRequest(input, tags, key).tag)
    ensures Trim(KeyDownRequest(input, tags, key).tag) == KeyDownRequest(input, tags, key).tag
  {
    TrimIdempotent(input);
  }

  /** Backspace on an empty input removes just the last tag from a well-formed list. */
  lemma BackspaceRemovesLast(tags: seq<string>)
    requires tags != [] && WellFormed(tags)
    ensures Apply(tags, KeyDownRequest("", tags, BackspaceKey)) == tags[..|tags| - 1]
  {
    RemoveLastDropsLast(tags);
  }

  /** Backspace over typed text, or with no tags, and any key other than Enter and
      Backspace, leave the tags as they are. */
  lemma OtherKeysKeepTags(input: string, tags: seq<string>, key: string)
    requires key != EnterKey
    requires key == BackspaceKey ==> input != "" || tags == []
    ensures Apply(tags, KeyDownRequest(input, tags, key)) == tags
  {
  }

  /** Every key press keeps the parent's list free of duplicates and of unclean tags. */
  lemma KeyDownKeepsWellFormed(input: string, tags: seq<string>, key: string)
    requires WellFormed(tags)
    ensures WellFormed(Apply(tags, KeyDownRequest(input, tags, key)))
  {
    var r := KeyDownRequest(input, tags, key);
    if r.Add? {
      AddedTagIsClean(input, tags, key);
      var ts := tags + [r.tag];
      assert forall k :: 0 <= k < |tags| ==> ts[k] == tags[k];
    } else if r.Remove? {
      RemoveLastDropsLast(tags);
      var ts := tags[..|tags| - 1];
      assert forall k :: 0 <= k < |ts| ==> ts[k] == tags[k];
    }
  }
}
