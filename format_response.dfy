/** `formatResponse`, the chatbot page's rewrite of the diagnosis text into HTML: every
    `**text**` becomes `<strong>text</strong>` (the lazy regular expression
    `\*\*(.*?)\*\*` with the `g` flag), then every newline becomes `<br/>`. */
module FormatResponse {

  import opened Basics

  /** The characters `.` does not match in a JavaScript regular expression without the
      `s` flag. */
  predicate IsLineTerminator(c: char) {
    c == '\n' || c == '\r' || c == '\U{2028}' || c == '\U{2029}'
  }

  /** `**` starts at position `j` of `s`. */
  predicate StarsAt(s: string, j: nat) {
    j + 1 < |s| && s[j] == '*' && s[j + 1] == '*'
  }

  /** Where the lazy `(.*?)` stops when the content starts at `i`: the first `**` at or
      after `i`, provided no line terminator comes before it. */
  function CloseAt(s: string, i: nat): (o: Option<nat>)
    requires i <= |s|
    ensures o.Some? ==> i <= o.value && StarsAt(s, o.value)
    ensures o.Some? ==> forall m :: i <= m < o.value ==> !IsLineTerminator(s[m]) && !StarsAt(s, m)
    ensures o.None? ==> forall j :: i <= j && StarsAt(s, j) ==> exists m :: i <= m < j && IsLineTerminator(s[m])
    decreases |s| - i
  {
    if i + 2 > |s| then None
    else if StarsAt(s, i) then Some(i)
    else if IsLineTerminator(s[i]) then None
    else CloseAt(s, i + 1)
  }

  /** `s.replace` of every match of `\*\*(.*?)\*\*` by `"<strong>" + x + "</strong>"`: at each
      position either a match starts there, and scanning resumes after it, or the
      character is kept and scanning moves one character on. */
  function Bold(s: string): string
    decreases |s|
  {
    if |s| >= 2 && StarsAt(s, 0) && CloseAt(s, 2).Some? then
      var j := CloseAt(s, 2).value;
      "<strong>" + s[2..j] + "</strong>" + Bold(s[j + 2..])
    else if s == [] then []
    else [s[0]] + Bold(s[1..])
  }

  /** `s.replace(/\n/g, "<br/>")`. */
  function ReplaceNewlines(s: string): (r: string)
    ensures forall i :: 0 <= i < |r| ==> r[i] != '\n'
  {
    if s == [] then []
    else (if s[0] == '\n' then "<br/>" else [s[0]]) + ReplaceNewlines(s[1..])
  }

  /** `formatResponse(response)`. */
  function Format(response: string): (r: string)
    ensures forall i :: 0 <= i < |r| ==> r[i] != '\n'
  {
    ReplaceNewlines(Bold(response))
  }

  // ---------------------------------------------------------------------------
  // Newlines

  function NewlineCount(s: string): nat {
    if s == [] then 0 else (if s[0] == '\n' then 1 else 0) + NewlineCount(s[1..])
  }

  lemma {:induction false} ReplaceNewlinesAppend(a: string, b: string)
    ensures ReplaceNewlines(a + b) == ReplaceNewlines(a) + ReplaceNewlines(b)
  {
    if a == [] {
      assert a + b == b;
    } else {
      assert (a + b)[0] == a[0];
      assert (a + b)[1..] == a[1..] + b;
      ReplaceNewlinesAppend(a[1..], b);
    }
  }

  /** Each newline turns into the four characters more of `<br/>`; nothing else grows. */
  lemma {:induction false} ReplaceNewlinesLength(s: string)
    ensures |ReplaceNewlines(s)| == |s| + 4 * NewlineCount(s)
  {
    if s != [] {
      ReplaceNewlinesLength(s[1..]);
    }
  }

  lemma {:induction false} NewlineCountZero(s: string)
    ensures NewlineCount(s) == 0 <==> forall i :: 0 <= i < |s| ==> s[i] != '\n'
  {
    if s != [] {
      NewlineCountZero(s[1..]);
      assert forall i :: 0 <= i < |s| - 1 ==> s[1..][i] == s[i + 1];
    }
  }

  lemma {:induction false} ReplaceNewlinesKeeps(s: string)
    requires forall i :: 0 <= i < |s| ==> s[i] != '\n'
    ensures ReplaceNewlines(s) == s
  {
    if s != [] {
      ReplaceNewlinesKeeps(s[1..]);
    }
  }

  /** The rewrite leaves a text alone exactly when it has no newline. */
  lemma ReplaceNewlinesUnchangedIff(s: string)
    ensures ReplaceNewlines(s) == s <==> forall i :: 0 <= i < |s| ==> s[i] != '\n'
  {
    ReplaceNewlinesLength(s);
    NewlineCountZero(s);
    if forall i :: 0 <= i < |s| ==> s[i] != '\n' {
      ReplaceNewlinesKeeps(s);
    }
  }

  // ---------------------------------------------------------------------------
  // Bold spans

  /** A text the lazy match takes whole as the content of `**x**`: no line terminator,
      and no `**` starts inside it, not even with the closing stars. */
  predicate BoldContent(x: string) {
    forall m {:trigger x[m]} :: 0 <= m < |x| ==> !IsLineTerminator(x[m]) && (x[m] == '*' ==> m + 1 < |x| && x[m + 1] != '*')
  }

  /** A text in which no `**` occurs. */
  predicate NoStars(s: string) {
    forall j :: 0 <= j < |s| ==> !StarsAt(s, j)
  }

  lemma {:induction false} CloseAfterContent(x: string, rest: string, i: nat)
    requires BoldContent(x)
    requires i <= |x|
    ensures CloseAt("**" + x + "**" + rest, 2 + i) == Some(2 + |x|)
    decreases |x| - i
  {
    var s := "**" + x + "**" + rest;
    assert forall m :: 0 <= m < |x| ==> s[2 + m] == x[m];
    assert s[2 + |x|] == '*' && s[3 + |x|] == '*';
    if i < |x| {
      assert !StarsAt(s, 2 + i) by {
        if x[i] == '*' {
          assert s[3 + i] == x[i + 1];
        }
      }
      CloseAfterContent(x, rest, i + 1);
    }
  }

  /** `**x**` is replaced by `<strong>x</strong>` and the rest is rewritten on its own. */
  lemma BoldSpan(x: string, rest: string)
    requires BoldContent(x)
    ensures Bold("**" + x + "**" + rest) == "<strong>" + x + "</strong>" + Bold(rest)
  {
    var s := "**" + x + "**" + rest;
    CloseAfterContent(x, rest, 0);
    assert s[2..2 + |x|] == x;
    assert s[2 + |x| + 2..] == rest;
  }

  /** A text without `**` passes through unchanged. */
  lemma {:induction false} BoldKeepsPlain(s: string)
    requires NoStars(s)
    ensures Bold(s) == s
    decreases |s|
  {
    if s != [] {
      assert !StarsAt(s, 0);
      assert forall j :: 0 <= j < |s| - 1 ==> (StarsAt(s[1..], j) <==> StarsAt(s, j + 1));
      BoldKeepsPlain(s[1..]);
    }
  }

  lemma BoldAfterNewline(rest: string)
    ensures Bold("\n" + rest) == "\n" + Bold(rest)
  {
    assert !StarsAt("\n" + rest, 0);
    assert ("\n" + rest)[1..] == rest;
  }

  lemma NewlineBecomesBreak(t: string)
    ensures ReplaceNewlines("\n" + t) == "<br/>" + ReplaceNewlines(t)
  {
    assert ("\n" + t)[0] == '\n';
    assert ("\n" + t)[1..] == t;
  }

  lemma StrongKeepsLine(x: string)
    requires BoldContent(x)
    ensures ReplaceNewlines("<strong>" + x + "</strong>") == "<strong>" + x + "</strong>"
  {
    var strong := "<strong>" + x + "</strong>";
    assert forall i :: 0 <= i < |x| ==> strong[8 + i] == x[i];
    ReplaceNewlinesKeeps(strong);
  }

  /** A bold heading on a line of its own, as the diagnosis text is laid out. */
  lemma FormatHeadingLine(x: string, rest: string)
    requires BoldContent(x)
    ensures Format("**" + x + "**" + "\n" + rest) == "<strong>" + x + "</strong>" + "<br/>" + Format(rest)
  {
    var strong := "<strong>" + x + "</strong>";
    assert "**" + x + "**" + "\n" + rest == "**" + x + "**" + ("\n" + rest);
    BoldSpan(x, "\n" + rest);
    BoldAfterNewline(rest);
    ReplaceNewlinesAppend(strong, "\n" + Bold(rest));
    StrongKeepsLine(x);
    NewlineBecomesBreak(Bold(rest));
  }
}
