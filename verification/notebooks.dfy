/** Creating a notebook from the create dialog (starlus/app/notebooks.tsx:6-33). */
module Notebooks {

  /** The characters `String.prototype.trim` strips: the white space and line
      terminators of section 12.2 and 12.3 of ECMA-262. */
  predicate IsSpace(c: char)
  {
    || c == '\t' || c == '\n' || c == '\U{000B}' || c == '\U{000C}' || c == '\r' || c == ' '
    || c == '\U{00A0}' || c == '\U{1680}' || ('\U{2000}' <= c <= '\U{200A}')
    || c == '\U{2028}' || c == '\U{2029}' || c == '\U{202F}' || c == '\U{205F}'
    || c == '\U{3000}' || c == '\U{FEFF}'
  }

  /** Number of leading white-space characters. */
  function LeadingSpace(s: string): (n: nat)
    ensures n <= |s|
    ensures forall i :: 0 <= i < n ==> IsSpace(s[i])
    ensures n < |s| ==> !IsSpace(s[n])
  {
    if s == [] || !IsSpace(s[0]) then 0 else 1 + LeadingSpace(s[1..])
  }

  /** Number of trailing white-space characters. */
  function TrailingSpace(s: string): (n: nat)
    ensures n <= |s|
    ensures forall i :: |s| - n <= i < |s| ==> IsSpace(s[i])
    ensures n < |s| ==> !IsSpace(s[|s| - n - 1])
  {
    if s == [] || !IsSpace(s[|s| - 1]) then 0 else 1 + TrailingSpace(s[..|s| - 1])
  }

  /** `s.trim()`: the string without its leading and trailing white space. */
  function Trim(s: string): (r: string)
    ensures r == [] || (!IsSpace(r[0]) && !IsSpace(r[|r| - 1]))
  {
    var lead := LeadingSpace(s);
    if lead == |s| then [] else s[lead..|s| - TrailingSpace(s)]
  }

  lemma SplitThree<T>(s: seq<T>, i: nat, j: nat)
    requires i <= j <= |s|
    ensures s == s[..i] + s[i..j] + s[j..]
  {
  }

  /** Trimming keeps a contiguous middle part of the input: the input is its first
      `LeadingSpace` characters, then the trimmed string, then the rest. */
  lemma TrimIsInfix(s: string)
    ensures LeadingSpace(s) + |Trim(s)| <= |s|
    ensures s == s[..LeadingSpace(s)] + Trim(s) + s[LeadingSpace(s) + |Trim(s)|..]
  {
    var lead := LeadingSpace(s);
    if lead < |s| {
      SplitThree(s, lead, |s| - TrailingSpace(s));
    } else {
      SplitThree(s, lead, lead);
    }
  }

  /** What trimming removes, at either end, is white space only. */
  lemma TrimRemovesOnlySpace(s: string)
    ensures LeadingSpace(s) + |Trim(s)| <= |s|
    ensures forall i :: 0 <= i < LeadingSpace(s) ==> IsSpace(s[i])
    ensures forall i :: LeadingSpace(s) + |Trim(s)| <= i < |s| ==> IsSpace(s[i])
  {
    var lead := LeadingSpace(s);
    if lead < |s| {
      assert lead + |Trim(s)| == |s| - TrailingSpace(s);
    }
  }

  /** A trimmed string is empty exactly when the input is all white space. */
  lemma TrimEmptyIffBlank(s: string)
    ensures Trim(s) == [] <==> forall i :: 0 <= i < |s| ==> IsSpace(s[i])
  {
    var lead := LeadingSpace(s);
    if lead < |s| {
      assert !IsSpace(s[lead]);
      var trail := TrailingSpace(s);
      assert s[lead] == Trim(s)[0];
    }
  }

  /** Trimming twice is trimming once. */
  lemma TrimIdempotent(s: string)
    ensures Trim(Trim(s)) == Trim(s)
  {
    var t := Trim(s);
    if t != [] {
      assert LeadingSpace(t) == 0;
      assert TrailingSpace(t) == 0;
    }
  }

  /** A notebook; `id` stands for `Date.now().toString()` and `createdAt` for `new Date()`. */
  datatype Notebook = Notebook(id: string, name: string, subject: string, createdAt: int)

  /** The notebooks screen: its list, the create dialog flag and the two inputs of the dialog. */
  datatype Screen = Screen(notebooks: seq<Notebook>, showCreateModal: bool, nameInput: string, subjectInput: string)

  /** The create button of the dialog, given the clock readings the source takes. */
  function CreateNotebook(s: Screen, id: string, now: int): (r: Screen)
    ensures Trim(s.nameInput) == [] || Trim(s.subjectInput) == [] ==> r == s
    ensures Trim(s.nameInput) != [] && Trim(s.subjectInput) != [] ==>
      && |r.notebooks| == |s.notebooks| + 1
      && r.notebooks[..|s.notebooks|] == s.notebooks
      && r.notebooks[|s.notebooks|] == Notebook(id, Trim(s.nameInput), Trim(s.subjectInput), now)
      && r.nameInput == [] && r.subjectInput == [] && !r.showCreateModal
  {
    var name := Trim(s.nameInput);
    var subject := Trim(s.subjectInput);
    if name != [] && subject != [] then
      Screen(s.notebooks + [Notebook(id, name, subject, now)], false, [], [])
    else s
  }

  /** A non-blank name and subject that neither start nor end with white space. */
  predicate Tidy(n: Notebook)
  {
    && n.name != [] && !IsSpace(n.name[0]) && !IsSpace(n.name[|n.name| - 1])
    && n.subject != [] && !IsSpace(n.subject[0]) && !IsSpace(n.subject[|n.subject| - 1])
  }

  /** Every notebook created through the dialog is tidy; the list only ever grows at its end. */
  lemma CreateKeepsTidy(s: Screen, id: string, now: int)
    requires forall i :: 0 <= i < |s.notebooks| ==> Tidy(s.notebooks[i])
    ensures var r := CreateNotebook(s, id, now);
      && (forall i :: 0 <= i < |r.notebooks| ==> Tidy(r.notebooks[i]))
      && |s.notebooks| <= |r.notebooks|
      && r.notebooks[..|s.notebooks|] == s.notebooks
  {
  }

  /** A successful create empties both inputs, so pressing create again at once changes nothing. */
  lemma CreateAfterSuccessIsNoOp(s: Screen, id: string, id2: string, now: int, later: int)
    ensures var r := CreateNotebook(s, id, now);
      r != s ==> CreateNotebook(r, id2, later) == r
  {
  }
}
