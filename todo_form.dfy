/**
 * The new-task form: JavaScript's String.prototype.trim, the title check of
 * `submitHandler` and the form state (title, description, error) it updates.
 */
module TodoForm {
  import opened Wrappers

  /**
   * The characters `trim` strips: ECMAScript WhiteSpace (tab, vertical tab,
   * form feed, space, no-break space, byte order mark and the other Unicode
   * space separators) and LineTerminator (LF, CR, line and paragraph separator).
   */
  predicate IsSpace(c: char)
  {
    var n := c as int;
    n == 0x09 || n == 0x0A || n == 0x0B || n == 0x0C || n == 0x0D || n == 0x20
    || n == 0xA0 || n == 0x1680 || (0x2000 <= n <= 0x200A) || n == 0x2028 || n == 0x2029
    || n == 0x202F || n == 0x205F || n == 0x3000 || n == 0xFEFF
  }

  predicate Blank(s: string)
  {
    forall i :: 0 <= i < |s| ==> IsSpace(s[i])
  }

  /** Drops the leading white space. */
  function TrimStart(s: string): (r: string)
    ensures |r| <= |s|
  {
    if s != [] && IsSpace(s[0]) then TrimStart(s[1..]) else s
  }

  /** Drops the trailing white space. */
  function TrimEnd(s: string): (r: string)
    ensures |r| <= |s|
  {
    if s != [] && IsSpace(s[|s| - 1]) then TrimEnd(s[..|s| - 1]) else s
  }

  /** `s.trim()`. */
  function Trim(s: string): string
  {
    TrimEnd(TrimStart(s))
  }

  /** TrimStart leaves a suffix that does not start with white space, after a blank prefix. */
  lemma {:induction false} TrimStartIsSuffix(s: string)
    ensures var r := TrimStart(s);
            && r == s[|s| - |r|..]
            && Blank(s[..|s| - |r|])
            && (r == [] || !IsSpace(r[0]))
  {
    if s != [] && IsSpace(s[0]) {
      TrimStartIsSuffix(s[1..]);
      var r := TrimStart(s);
      assert s[1..][|s| - 1 - |r|..] == s[|s| - |r|..];
      assert forall i :: 1 <= i < |s| - |r| ==> s[i] == s[1..][..|s| - 1 - |r|][i - 1];
    }
  }

  /** TrimEnd leaves a prefix that does not end with white space, before a blank suffix. */
  lemma {:induction false} TrimEndIsPrefix(s: string)
    ensures var r := TrimEnd(s);
            && r == s[..|r|]
            && Blank(s[|r|..])
            && (r == [] || !IsSpace(r[|r| - 1]))
  {
    if s != [] && IsSpace(s[|s| - 1]) {
      var s' := s[..|s| - 1];
      TrimEndIsPrefix(s');
      var r := TrimEnd(s);
      assert s'[..|r|] == s[..|r|];
      assert forall i :: |r| <= i < |s| - 1 ==> s[i] == s'[|r|..][i - |r|];
    }
  }

  /** The trimmed string is empty exactly when the input is all white space. */
  lemma TrimEmptyIffBlank(s: string)
    ensures Trim(s) == [] <==> Blank(s)
  {
    var t := TrimStart(s);
    TrimStartIsSuffix(s);
    TrimEndIsPrefix(t);
    var k := |s| - |t|;
    if t != [] {
      assert t[0] == s[k];
    }
    if TrimEnd(t) == [] {
      assert t[0..] == t;
      assert t == [];
      assert s[..k] == s;
    }
  }

  /** A non-empty trimmed string neither starts nor ends with white space. */
  lemma TrimmedEnds(s: string)
    ensures Trim(s) != [] ==> !IsSpace(Trim(s)[0]) && !IsSpace(Trim(s)[|Trim(s)| - 1])
  {
    var t := TrimStart(s);
    TrimStartIsSuffix(s);
    TrimEndIsPrefix(t);
    var r := TrimEnd(t);
    if r != [] {
      assert r[0] == t[0];
    }
  }

  /** `s.trim()` is the part of `s` between a blank prefix and a blank suffix. */
  lemma TrimIsMiddle(s: string)
    ensures var i := |s| - |TrimStart(s)|;
            && i + |Trim(s)| <= |s|
            && Trim(s) == s[i..i + |Trim(s)|]
            && Blank(s[..i]) && Blank(s[i + |Trim(s)|..])
  {
    var t := TrimStart(s);
    TrimStartIsSuffix(s);
    TrimEndIsPrefix(t);
    var r := TrimEnd(t);
    var i := |s| - |t|;
    assert r == t[..|r|] && t == s[i..];
    assert r == s[i..i + |r|];
    assert s[i + |r|..] == t[|r|..];
    assert Trim(s) == r;
  }

  /** Trimming twice is trimming once. */
  lemma TrimIdempotent(s: string)
    ensures Trim(Trim(s)) == Trim(s)
  {
    var r := Trim(s);
    TrimmedEnds(s);
    assert TrimStart(r) == r;
    assert TrimEnd(r) == r;
  }

  /** What `submitHandler` hands to `onAdd`. */
  datatype NewTodo = NewTodo(title: string, description: string)

  /**
   * The check of `submitHandler`: a title that is empty or all white space is
   * refused; otherwise the trimmed title, never empty, and the trimmed
   * description are submitted.
   */
  function Submission(title: string, description: string): (r: Option<NewTodo>)
    ensures r.None? <==> Blank(title)
    ensures r.Some? ==> r.value.title != "" && r.value.title == Trim(title)
    ensures r.Some? ==> r.value.description == Trim(description)
  {
    TrimEmptyIffBlank(title);
    if Trim(title) == "" then None else Some(NewTodo(Trim(title), Trim(description)))
  }

  /**
   * The form is stricter than POST /: the server refuses only a missing or
   * empty title, so every title the form sends passes it, while a title of
   * spaces that the server would store never leaves the form.
   */
  lemma FormIsStricterThanServer(title: string, description: string)
    ensures Submission(title, description).Some? ==> Truthy(Some(Submission(title, description).value.title))
    ensures Truthy(Some(" ")) && Submission(" ", description).None?
  {
    assert Blank(" ") by { assert IsSpace(" "[0]); }
    TrimEmptyIffBlank(" ");
  }

  class TodoForm {
    var title: string
    var description: string
    var error: string

    constructor ()
      ensures title == "" && description == "" && error == ""
    {
      title, description, error := "", "", "";
    }

    /**
     * `submitHandler`: clears the error, then either reports "Title is
     * required" and leaves the fields alone, or passes the trimmed values to
     * `onAdd` (the result) and clears both fields.
     */
    method Submit() returns (added: Option<NewTodo>)
      modifies this
      ensures added == Submission(old(title), old(description))
      ensures added.None? ==> error == "Title is required" && title == old(title) && description == old(description)
      ensures added.Some? ==> error == "" && title == "" && description == ""
    {
      error := "";
      if Trim(title) == "" {
        error := "Title is required";
        return None;
      }
      added := Some(NewTodo(Trim(title), Trim(description)));
      title := "";
      description := "";
    }
  }
}
