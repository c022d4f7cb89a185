/** The line-level helpers of the DDL parser (parser/parser.go): which lines are skipped, and
    the innermost-argument extraction used to collapse a TTL expression. */
module DdlParser {
  import opened Wrappers
  import opened Text

  /** pass: blank lines, comment lines and lone parentheses carry nothing. */
  predicate Pass(s: string) {
    |s| == 0 || HasPrefix(s, "#") || HasPrefix(s, "--") || (|s| == 1 && (s == "(" || s == ")"))
  }

  /** The lines pass skips, stated through their first characters. */
  lemma PassCharacterises(s: string)
    ensures Pass(s) <==> (s == [] || s[0] == '#' || (|s| >= 2 && s[0] == '-' && s[1] == '-') || s == "(" || s == ")")
  {
    if |s| >= 2 {
      assert s[..2] == [s[0], s[1]];
    }
    if |s| >= 1 {
      assert s[..1] == [s[0]];
    }
  }

  /** The capacity of fetchValFromFunc's bracket stack. */
  const FuncStackSize: nat := 50

  /** The scan of fetchValFromFunc from byte `i`: `depth` is the stack index (2 after the
      first `(`), `acc` the text kept so far. Every `(` is kept and pushed; a `)` is kept
      unless it closes the outermost level, and pops. A push outside the 50 slots indexes out
      of range, which is a runtime panic: None. */
  function Strip(ss: string, i: nat, depth: int, acc: string): (r: Option<string>)
    requires i <= |ss|
    ensures r.Some? ==> |r.value| <= |acc| + |ss| - i
    decreases |ss| - i
  {
    if i == |ss| then Some(acc)
    else if ss[i] == '(' then
      if 0 <= depth < FuncStackSize as int then Strip(ss, i + 1, depth + 1, acc + ['(']) else None
    else if ss[i] == ')' then
      Strip(ss, i + 1, depth - 1, if depth != 2 then acc + [')'] else acc)
    else Strip(ss, i + 1, depth, acc + [ss[i]])
  }

  /** fetchValFromFunc: the text inside the first function call, repeated until no `(` is
      left; None for the panicking inputs. */
  function FetchVal(s: string): (r: Option<string>)
    ensures r.Some? ==> '(' !in r.value
    ensures '(' !in s ==> r == Some(s)
    decreases |s|
  {
    if '(' !in s then Some(s)
    else
      var idx := IndexOfChar(s, '(');
      match Strip(s, idx + 1, 2, [])
      case None => None
      case Some(w) =>
        var t := TrimSpace(w);
        if '(' in t then FetchVal(t) else Some(t)
  }

  /** A collapsed value is left alone: collapsing is idempotent. */
  lemma FetchValIdempotent(s: string)
    requires FetchVal(s).Some?
    ensures FetchVal(FetchVal(s).value) == FetchVal(s)
  {
  }

  /** The loop of fetchValFromFunc over a fixed 50-slot stack. */
  method StripLoop(ss: string, start: nat) returns (r: Option<string>)
    requires start <= |ss|
    ensures r == Strip(ss, start, 2, [])
  {
    var stack := new char[FuncStackSize];
    stack[1] := '(';
    var stackIndex := 2;
    var newWord: string := [];
    var index := start;
    while index < |ss|
      invariant start <= index <= |ss|
      invariant Strip(ss, index, stackIndex, newWord) == Strip(ss, start, 2, [])
    {
      if ss[index] == '(' {
        if stackIndex < 0 || stackIndex >= stack.Length {
          return None;
        }
        stack[stackIndex] := '(';
        stackIndex := stackIndex + 1;
        newWord := newWord + ['('];
      } else if ss[index] == ')' {
        if stackIndex != 2 {
          newWord := newWord + [')'];
        }
        stackIndex := stackIndex - 1;
      } else {
        newWord := newWord + [ss[index]];
      }
      index := index + 1;
    }
    return Some(newWord);
  }

  /** fetchValFromFunc, recursing on the trimmed inner text while it still holds a `(`. */
  method FetchValFromFunc(s: string) returns (r: Option<string>)
    ensures r == FetchVal(s)
    decreases |s|
  {
    if '(' !in s {
      return Some(s);
    }
    var idx := IndexOfChar(s, '(');
    var inner := StripLoop(s, idx + 1);
    if inner.None? {
      return None;
    }
    var t := TrimSpace(inner.value);
    if '(' in t {
      r := FetchValFromFunc(t);
    } else {
      r := Some(t);
    }
  }

  /** A run of text without parentheses is copied as it is. */
  lemma {:induction false} StripPlain(ss: string, i: nat, j: nat, depth: int, acc: string)
    requires i <= j <= |ss|
    requires forall k :: i <= k < j ==> ss[k] != '(' && ss[k] != ')'
    ensures Strip(ss, i, depth, acc) == Strip(ss, j, depth, acc + ss[i..j])
    decreases j - i
  {
    if i < j {
      StripPlain(ss, i + 1, j, depth, acc + [ss[i]]);
      assert acc + [ss[i]] + ss[i + 1..j] == acc + ss[i..j];
    } else {
      assert acc + ss[i..j] == acc;
    }
  }

  /** Text without blanks at either end is its own TrimSpace. */
  lemma TrimSpaceNoBlanks(s: string)
    requires s != [] && !IsSpace(s[0]) && !IsSpace(s[|s| - 1])
    ensures TrimSpace(s) == s
  {
  }

  /** One round of fetchValFromFunc on text whose first `(` is at `idx`. */
  lemma FetchValRound(s: string, idx: nat, w: string)
    requires idx < |s| && s[idx] == '(' && '(' !in s[..idx]
    requires Strip(s, idx + 1, 2, []) == Some(w)
    ensures FetchVal(s) == if '(' in TrimSpace(w) then FetchVal(TrimSpace(w)) else Some(TrimSpace(w))
  {
    IndexOfCharFirst(s, '(', idx);
    assert s[idx] in s;
  }

  lemma StripCallExample()
    ensures Strip("toDate(x)", 7, 2, []) == Some("x")
  {
    var s := "toDate(x)";
    StripPlain(s, 7, 8, 2, []);
    assert [] + s[7..8] == "x";
    assert Strip(s, 8, 2, "x") == Strip(s, 9, 1, "x");
  }

  /** A single call is unwrapped to its argument. */
  lemma FetchValUnwrapsCall()
    ensures FetchVal("toDate(x)") == Some("x")
  {
    var s := "toDate(x)";
    StripCallExample();
    assert '(' !in s[..6] by { assert s[..6] == "toDate"; }
    FetchValRound(s, 6, "x");
    TrimSpaceNoBlanks("x");
  }

  lemma StripInnerExample()
    ensures Strip("g(x)", 2, 2, []) == Some("x")
  {
    var t := "g(x)";
    StripPlain(t, 2, 3, 2, []);
    assert [] + t[2..3] == "x";
    assert Strip(t, 3, 2, "x") == Strip(t, 4, 1, "x");
  }

  lemma StripOuterExample()
    ensures Strip("f(g(x))", 2, 2, []) == Some("g(x)")
  {
    var s := "f(g(x))";
    StripPlain(s, 2, 3, 2, []);
    assert [] + s[2..3] == "g";
    assert "g" + ['('] == "g(";
    assert Strip(s, 3, 2, "g") == Strip(s, 4, 3, "g(");
    StripPlain(s, 4, 5, 3, "g(");
    assert "g(" + s[4..5] == "g(x";
    assert "g(x" + [')'] == "g(x)";
    assert Strip(s, 5, 3, "g(x") == Strip(s, 6, 2, "g(x)");
    assert Strip(s, 6, 2, "g(x)") == Strip(s, 7, 1, "g(x)");
  }

  /** Nested calls are unwrapped to the innermost argument. */
  lemma FetchValUnwrapsNested()
    ensures FetchVal("f(g(x))") == Some("x")
  {
    var t := "g(x)";
    StripInnerExample();
    assert '(' !in t[..1] by { assert t[..1] == "g"; }
    FetchValRound(t, 1, "x");
    TrimSpaceNoBlanks("x");
    var s := "f(g(x))";
    StripOuterExample();
    assert '(' !in s[..1] by { assert s[..1] == "f"; }
    FetchValRound(s, 1, "g(x)");
    TrimSpaceNoBlanks("g(x)");
    assert t[1] in t;
  }

  /** Text without brackets. */
  predicate NoBrackets(s: string) {
    '(' !in s && ')' !in s
  }

  /** Trimming blanks keeps only characters of the text. */
  lemma {:induction false} TrimLeftKeeps(s: string, c: char)
    requires c !in s
    ensures c !in TrimLeftSpace(s)
    decreases |s|
  {
    if |s| > 0 && IsSpace(s[0]) {
      assert forall k :: 0 <= k < |s[1..]| ==> s[1..][k] == s[k + 1];
      TrimLeftKeeps(s[1..], c);
    }
  }

  lemma {:induction false} TrimRightKeeps(s: string, c: char)
    requires c !in s
    ensures c !in TrimRightSpace(s)
    decreases |s|
  {
    if |s| > 0 && IsSpace(s[|s| - 1]) {
      assert forall k :: 0 <= k < |s| - 1 ==> s[..|s| - 1][k] == s[k];
      TrimRightKeeps(s[..|s| - 1], c);
    }
  }

  /** At depth 2, a bracket-free run, the `)` that closes the call, then a bracket-free rest:
      the scan keeps the run and the rest and drops the `)`. */
  lemma {:induction false} StripCloseAt(s: string, i: nat, j: nat)
    requires i <= j < |s| && s[j] == ')'
    requires NoBrackets(s[i..j]) && NoBrackets(s[j + 1..])
    ensures Strip(s, i, 2, []) == Some(s[i..j] + s[j + 1..])
  {
    var x := s[i..j];
    forall k | i <= k < j ensures s[k] != '(' && s[k] != ')' {
      assert s[k] == x[k - i] && x[k - i] in x;
    }
    StripPlain(s, i, j, 2, []);
    assert [] + x == x;
    assert Strip(s, j, 2, x) == Strip(s, j + 1, 1, x);
    forall k | j + 1 <= k < |s| ensures s[k] != '(' && s[k] != ')' {
      assert s[k] == s[j + 1..][k - j - 1] && s[k] in s[j + 1..];
    }
    StripPlain(s, j + 1, |s|, 1, x);
    assert s[j + 1..|s|] == s[j + 1..];
    var y := x + s[j + 1..];
    assert Strip(s, |s|, 1, y) == Some(y);
  }

  /** The pieces of a call followed by trailing text. */
  lemma CallParts(f: string, x: string, tail: string)
    ensures var s := f + "(" + x + ")" + tail; var j := |f| + 1 + |x|;
      j < |s| && s[|f| + 1..j] == x && s[j] == ')' && s[j + 1..] == tail
  {
  }

  /** The scan after the `(` of a call whose argument and trailing text hold no brackets keeps
      both and drops the `)` that closes the call. */
  lemma {:induction false} StripCallTail(f: string, x: string, tail: string)
    requires NoBrackets(x) && NoBrackets(tail)
    ensures Strip(f + "(" + x + ")" + tail, |f| + 1, 2, []) == Some(x + tail)
  {
    var s := f + "(" + x + ")" + tail;
    var i := |f| + 1;
    var j := i + |x|;
    CallParts(f, x, tail);
    StripCloseAt(s, i, j);
    assert Strip(s, i, 2, []) == Some(x + tail);
  }

  /** Text after the call's closing parenthesis is kept: a call with a bracket-free argument
      followed by bracket-free text collapses to the argument and that text, trimmed. */
  lemma {:induction false} FetchValKeepsTail(f: string, x: string, tail: string)
    requires NoBrackets(f) && NoBrackets(x) && NoBrackets(tail)
    ensures FetchVal(f + "(" + x + ")" + tail) == Some(TrimSpace(x + tail))
  {
    var s := f + "(" + x + ")" + tail;
    assert s[|f|] == '(' && s[..|f|] == f;
    StripCallTail(f, x, tail);
    FetchValRound(s, |f|, x + tail);
    assert '(' !in x + tail by {
      forall k | 0 <= k < |x + tail| ensures (x + tail)[k] != '(' {
        if k >= |x| { assert (x + tail)[k] == tail[k - |x|]; }
      }
    }
    TrimLeftKeeps(x + tail, '(');
    TrimRightKeeps(TrimLeftSpace(x + tail), '(');
  }
}
