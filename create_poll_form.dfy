/** The option list of the poll-creation form
    (components/forms/create-poll-form.tsx): it starts with two blank
    entries, grows by Add Option, shrinks by the remove buttons (never below
    two entries) and is edited entry by entry; on submit only the entries
    with some non-blank text are sent. */
module CreatePollForm {
  import opened Seqs

  // ------------------------------------------------------------- trim

  /** The characters String.prototype.trim strips: ECMAScript WhiteSpace
      (tab, vertical tab, form feed, space, no-break space, the byte order
      mark and the Unicode space separators) and LineTerminator. */
  predicate IsJsSpace(c: char)
  {
    || c == '\t' || c == '\n' || c == '\U{000B}' || c == '\U{000C}' || c == '\r'
    || c == ' ' || c == '\U{00A0}' || c == '\U{1680}'
    || ('\U{2000}' <= c <= '\U{200A}')
    || c == '\U{2028}' || c == '\U{2029}' || c == '\U{202F}' || c == '\U{205F}'
    || c == '\U{3000}' || c == '\U{FEFF}'
  }

  predicate AllSpace(s: string)
  {
    forall i :: 0 <= i < |s| ==> IsJsSpace(s[i])
  }

  /** `s` without its leading white space: the suffix of `s` left after an
      all-space prefix, empty or starting with a non-space. */
  function TrimStart(s: string): (r: string)
    ensures |r| <= |s| && r == s[|s| - |r|..]
    ensures AllSpace(s[..|s| - |r|])
    ensures r == [] <==> AllSpace(s)
    ensures r != [] ==> !IsJsSpace(r[0])
  {
    if s != [] && IsJsSpace(s[0]) then
      var r := TrimStart(s[1..]);
      var n := |s| - |r|;
      assert forall k :: 0 < k < n ==> s[k] == s[1..][..n - 1][k - 1];
      r
    else s
  }

  /** `s` without its trailing white space: the prefix of `s` left before an
      all-space suffix, empty or ending with a non-space. */
  function TrimEnd(s: string): (r: string)
    ensures |r| <= |s| && r == s[..|r|]
    ensures AllSpace(s[|r|..])
    ensures r == [] <==> AllSpace(s)
    ensures r != [] ==> !IsJsSpace(r[|r| - 1])
  {
    if s != [] && IsJsSpace(s[|s| - 1]) then
      var r := TrimEnd(s[..|s| - 1]);
      assert s[|r|..] == s[..|s| - 1][|r|..] + [s[|s| - 1]];
      r
    else s
  }

  /** String.prototype.trim: the slice of `s` between an all-space prefix
      and an all-space suffix; empty exactly for an all-space text, and
      otherwise starting and ending with a non-space. */
  function Trim(s: string): (r: string)
    ensures exists i, j :: 0 <= i <= j <= |s| && r == s[i..j] && AllSpace(s[..i]) && AllSpace(s[j..])
    ensures r == [] <==> AllSpace(s)
    ensures r != [] ==> !IsJsSpace(r[0]) && !IsJsSpace(r[|r| - 1])
  {
    var t := TrimStart(s);
    var r := TrimEnd(t);
    SliceBetween(s, t, r);
    assert r == s[|s| - |t|..|s| - |t| + |r|];
    r
  }

  /** A prefix `r` of a suffix `t` of `s`, each cut off at white space, is
      the slice of `s` between an all-space prefix and an all-space suffix. */
  lemma SliceBetween(s: string, t: string, r: string)
    requires |t| <= |s| && t == s[|s| - |t|..] && AllSpace(s[..|s| - |t|])
    requires |r| <= |t| && r == t[..|r|] && AllSpace(t[|r|..])
    ensures var i := |s| - |t|;
            && r == s[i..i + |r|]
            && AllSpace(s[..i]) && AllSpace(s[i + |r|..])
  {
    var i := |s| - |t|;
    assert s[i..i + |r|] == t[..|r|];
    assert s[i + |r|..] == t[|r|..];
  }

  /** `opt.trim()` is truthy. */
  predicate IsFilled(opt: string)
  {
    Trim(opt) != ""
  }

  /** `options.filter(opt => opt.trim())`: the entries sent on submit, as
      typed (untrimmed), in their order. */
  function SubmittedOptions(options: seq<string>): seq<string>
  {
    Filter(options, IsFilled)
  }

  /** The submitted entries are exactly the entries with a non-space
      character, each as often as it was entered. */
  lemma SubmittedAreTheFilledEntries(options: seq<string>, x: string)
    ensures x in SubmittedOptions(options) <==> x in options && !AllSpace(x)
    ensures Count(SubmittedOptions(options), x) == if AllSpace(x) then 0 else Count(options, x)
  {
    CountFilter(options, IsFilled, x);
  }

  lemma SubmittedKeepsOrder(a: seq<string>, b: seq<string>)
    ensures SubmittedOptions(a + b) == SubmittedOptions(a) + SubmittedOptions(b)
  {
    FilterConcat(a, b, IsFilled);
  }

  // ------------------------------------------------------------ edits

  /** `useState(["", ""])`. */
  function InitialOptions(): seq<string>
  {
    ["", ""]
  }

  /** One handler call on the option list. */
  datatype Edit = Add | Remove(index: int) | Update(index: int, value: string)

  /** `options.filter((_, i) => i !== index)`: the entry at `index` dropped;
      nothing dropped when no entry has that index. */
  function DropIndex(s: seq<string>, index: int): seq<string>
  {
    if 0 <= index < |s| then s[..index] + s[index + 1..] else s
  }

  /** The option list after one handler. `removeOption` acts only while
      there are more than two entries. An update outside the list, which the
      form never issues, is taken to change nothing. */
  function ApplyEdit(s: seq<string>, e: Edit): seq<string>
  {
    match e
    case Add => s + [""]
    case Remove(i) => if |s| > 2 then DropIndex(s, i) else s
    case Update(i, v) => if 0 <= i < |s| then s[i := v] else s
  }

  /** `addOption` appends one blank entry and keeps the others. */
  lemma AddAppendsBlank(s: seq<string>)
    ensures |ApplyEdit(s, Add)| == |s| + 1
    ensures ApplyEdit(s, Add)[..|s|] == s && ApplyEdit(s, Add)[|s|] == ""
  {
  }

  /** `removeOption(i)` with more than two entries drops exactly entry `i`
      and keeps the rest in order; with two or fewer it changes nothing. */
  lemma RemoveDropsOneEntry(s: seq<string>, i: int)
    ensures |s| > 2 && 0 <= i < |s| ==>
              var r := ApplyEdit(s, Remove(i));
              |r| == |s| - 1 && forall k :: 0 <= k < |r| ==> r[k] == s[if k < i then k else k + 1]
    ensures |s| <= 2 ==> ApplyEdit(s, Remove(i)) == s
  {
  }

  /** `updateOption(i, v)` sets entry `i` and nothing else. */
  lemma UpdateSetsOneEntry(s: seq<string>, i: nat, v: string)
    requires i < |s|
    ensures |ApplyEdit(s, Update(i, v))| == |s|
    ensures ApplyEdit(s, Update(i, v))[i] == v
    ensures forall k :: 0 <= k < |s| && k != i ==> ApplyEdit(s, Update(i, v))[k] == s[k]
  {
  }

  /** The option list after a run of handler calls from the initial state. */
  function Replay(edits: seq<Edit>): seq<string>
  {
    if edits == [] then InitialOptions()
    else ApplyEdit(Replay(edits[..|edits| - 1]), edits[|edits| - 1])
  }

  /** Whatever the user does, the form never holds fewer than two entries. */
  lemma {:induction false} ReplayKeepsTwoOptions(edits: seq<Edit>)
    ensures |Replay(edits)| >= 2
  {
    if edits != [] {
      ReplayKeepsTwoOptions(edits[..|edits| - 1]);
    }
  }

  // ------------------------------------------------------------- form

  /** The `options` state of the form. */
  class PollDraft {
    var options: seq<string>

    ghost predicate Valid()
      reads this
    {
      |options| >= 2
    }

    constructor ()
      ensures Valid() && options == InitialOptions()
    {
      options := ["", ""];
    }

    method AddOption()
      requires Valid()
      modifies this
      ensures Valid()
      ensures options == ApplyEdit(old(options), Add)
    {
      options := options + [""];
    }

    method RemoveOption(index: int)
      requires Valid()
      modifies this
      ensures Valid()
      ensures options == ApplyEdit(old(options), Remove(index))
    {
      if |options| > 2 {
        options := DropIndex(options, index);
      }
    }

    /** The form calls it only with the index of a rendered entry. */
    method UpdateOption(index: int, value: string)
      requires Valid()
      requires 0 <= index < |options|
      modifies this
      ensures Valid()
      ensures options == ApplyEdit(old(options), Update(index, value))
    {
      var newOptions := options;
      newOptions := newOptions[index := value];
      options := newOptions;
    }

    /** The options the submit handler sends. */
    function Submitted(): (r: seq<string>)
      reads this
      ensures forall x :: x in r <==> x in options && !AllSpace(x)
    {
      SubmittedOptions(options)
    }
  }
}
