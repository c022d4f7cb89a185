/** The CREATE TABLE line parser (parser/table.go): the bracket-aware word scanner and the
    three line handlers that fill a parsed table. Text is ASCII. */
module DdlTable {
  import opened Wrappers
  import opened Text
  import opened Schema
  import opened DdlParser

  // ---------------------------------------------------------------------------
  // fetchWord

  /** The capacity of fetchWord's bracket stack; slot 0 is never written. */
  const WordStackSize: nat := 100

  /** Why a line could not be parsed: fetchWord ends with unclosed brackets or quotes (its
      explicit panic), or pushes past its 100 slots (an index out of range); or the collapse of
      a DEFAULT or TTL expression pushes past its 50-slot stack (an index out of range). */
  datatype ParseError = Unbalanced | StackOverflow | FetchValOverrun

  /** The element under the stack index: the zero rune when nothing has been pushed. */
  function Top(stk: seq<char>): char {
    if stk == [] then 0 as char else stk[|stk| - 1]
  }

  /** How one consumed character changes the stack and the double-quote flag; None when a
      push would overflow. */
  function Step(c: char, stk: seq<char>, inQuotes: bool): Option<(seq<char>, bool)> {
    if c == '"' then Some((stk, !inQuotes))
    else if c == '\'' then
      if Top(stk) == '\'' then Some((stk[..|stk| - 1], inQuotes))
      else if |stk| + 1 < WordStackSize then Some((stk + ['\''], inQuotes))
      else None
    else if c == '[' || c == '(' || c == '<' then
      if |stk| + 1 < WordStackSize then Some((stk + [c], inQuotes)) else None
    else if (c == ']' && Top(stk) == '[') || (c == ')' && Top(stk) == '(') || (c == '>' && Top(stk) == '<') then
      Some((stk[..|stk| - 1], inQuotes))
    else Some((stk, inQuotes))
  }

  /** Where the scan ends and how deep the stack is there, or StackFull. */
  datatype ScanEnd = ScanEnd(stop: nat, depth: nat) | StackFull

  /** The scanning loop of fetchWord from index `i`: it stops at the end, before a `,` that is
      the last character, or at a space with an empty stack outside double quotes. */
  function Scan(s: string, i: nat, stk: seq<char>, inQuotes: bool): (r: ScanEnd)
    requires i <= |s|
    ensures r.ScanEnd? ==> i <= r.stop <= |s|
    decreases |s| - i
  {
    if i == |s| then ScanEnd(i, |stk|)
    else if i == |s| - 1 && s[i] == ',' then ScanEnd(i, |stk|)
    else if s[i] == ' ' && |stk| == 0 && !inQuotes then ScanEnd(i, 0)
    else
      match Step(s[i], stk, inQuotes)
      case None => StackFull
      case Some(st) => Scan(s, i + 1, st.0, st.1)
  }

  /** The first non-space index at or after `i`. */
  function SkipSpaces(s: string, i: nat): (r: nat)
    requires i <= |s|
    ensures i <= r <= |s|
    ensures r < |s| ==> s[r] != ' '
    ensures forall k :: i <= k < r ==> s[k] == ' '
    decreases |s| - i
  {
    if i < |s| && s[i] == ' ' then SkipSpaces(s, i + 1) else i
  }

  /** fetchWord: the word starting at the first non-space at or after `begin`, and the index
      where scanning stopped; the word is exactly the scanned slice. */
  function FetchWordSpec(s: string, begin: nat): (r: Result<(string, nat), ParseError>)
    requires begin <= |s|
    ensures r.Ok? ==> begin <= r.value.1 <= |s|
    ensures r.Ok? && r.value.0 != [] ==>
      begin <= SkipSpaces(s, begin) < r.value.1 <= |s| && r.value.0 == s[SkipSpaces(s, begin)..r.value.1]
  {
    var start := SkipSpaces(s, begin);
    if start >= |s| then Ok(([], start))
    else
      match Scan(s, start, [], false)
      case StackFull => Err(StackOverflow)
      case ScanEnd(stop, depth) => if depth > 0 then Err(Unbalanced) else Ok((s[start..stop], stop))
  }

  /** One character of fetchWord's loop on the array stack, whose slots 1 .. stackIndex - 1
      hold `stk`: the stack and the quote flag move as Step says, or the push overflows. */
  method StepStack(stack: array<char>, stackIndex: nat, ghost stk: seq<char>, c: char, inQuotes: bool)
    returns (overflow: bool, index: nat, quoted: bool, ghost stk': seq<char>)
    requires stack.Length == WordStackSize
    requires 1 <= stackIndex <= stack.Length && stackIndex == |stk| + 1
    requires stack[0] == 0 as char && stack[1..stackIndex] == stk
    modifies stack
    ensures overflow <==> Step(c, stk, inQuotes).None?
    ensures !overflow ==> Step(c, stk, inQuotes) == Some((stk', quoted))
    ensures !overflow ==> 1 <= index <= stack.Length && index == |stk'| + 1
    ensures !overflow ==> stack[0] == 0 as char && stack[1..index] == stk'
  {
    overflow, index, quoted, stk' := false, stackIndex, inQuotes, stk;
    assert stack[stackIndex - 1] == Top(stk);
    if c == '"' {
      quoted := !inQuotes;
    } else if c == '\'' {
      if stack[stackIndex - 1] == '\'' {
        index := stackIndex - 1;
        stk' := stk[..|stk| - 1];
      } else {
        if stackIndex >= stack.Length {
          return true, index, quoted, stk';
        }
        stack[stackIndex] := '\'';
        index := stackIndex + 1;
        stk' := stk + ['\''];
      }
    } else if c == '[' || c == '(' || c == '<' {
      if stackIndex >= stack.Length {
        return true, index, quoted, stk';
      }
      stack[stackIndex] := c;
      index := stackIndex + 1;
      stk' := stk + [c];
    } else if (c == ']' && stack[stackIndex - 1] == '[') || (c == ')' && stack[stackIndex - 1] == '(')
      || (c == '>' && stack[stackIndex - 1] == '<') {
      index := stackIndex - 1;
      stk' := stk[..|stk| - 1];
    }
  }

  /** fetchWord over a 100-slot array stack. */
  method FetchWord(ss: string, begin: nat) returns (r: Result<(string, nat), ParseError>)
    requires begin <= |ss|
    ensures r == FetchWordSpec(ss, begin)
  {
    var b := begin;
    while b < |ss| && ss[b] == ' '
      invariant begin <= b <= |ss|
      invariant SkipSpaces(ss, b) == SkipSpaces(ss, begin)
      decreases |ss| - b
    {
      b := b + 1;
    }
    if b >= |ss| {
      return Ok(([], b));
    }
    var start := b;
    var stack := new char[WordStackSize](_ => 0 as char);
    var stackIndex := 1;
    var inQuotes := false;
    var word: string := [];
    ghost var stk: seq<char> := [];
    while b < |ss|
      invariant start <= b <= |ss|
      invariant stack.Length == WordStackSize
      invariant 1 <= stackIndex <= stack.Length && stackIndex == |stk| + 1
      invariant stack[0] == 0 as char
      invariant stack[1..stackIndex] == stk
      invariant word == ss[start..b]
      invariant Scan(ss, b, stk, inQuotes) == Scan(ss, start, [], false)
      decreases |ss| - b
    {
      if b == |ss| - 1 && ss[b] == ',' {
        break;
      }
      if ss[b] == ' ' && stackIndex <= 1 && !inQuotes {
        break;
      }
      word := word + [ss[b]];
      var overflow;
      overflow, stackIndex, inQuotes, stk := StepStack(stack, stackIndex, stk, ss[b], inQuotes);
      if overflow {
        return Err(StackOverflow);
      }
      b := b + 1;
    }
    if stackIndex > 1 {
      return Err(Unbalanced);
    }
    return Ok((word, b));
  }

  /** A character that leaves the stack and the quote flag alone. */
  predicate Neutral(c: char) {
    c != '"' && c != '\'' && c != '[' && c != ']' && c != '(' && c != ')' && c != '<' && c != '>'
  }

  /** Neutral characters are consumed without changing the scan state, as long as a space is
      only met inside brackets. */
  lemma {:induction false} ScanNeutral(s: string, i: nat, j: nat, stk: seq<char>)
    requires i <= j < |s|
    requires forall k :: i <= k < j ==> Neutral(s[k]) && (s[k] == ' ' ==> stk != [])
    ensures Scan(s, i, stk, false) == Scan(s, j, stk, false)
    decreases j - i
  {
    if i < j {
      ScanNeutral(s, i + 1, j, stk);
    }
  }

  /** Text of neutral characters without spaces or a final comma is one word, scanned to its
      end. */
  lemma {:induction false} ScanPlain(s: string, i: nat)
    requires i <= |s|
    requires forall k :: i <= k < |s| ==> Neutral(s[k]) && s[k] != ' '
    requires |s| > 0 ==> s[|s| - 1] != ','
    ensures Scan(s, i, [], false) == ScanEnd(|s|, 0)
    decreases |s| - i
  {
    if i < |s| {
      ScanPlain(s, i + 1);
    }
  }

  /** A plain word is returned whole. */
  lemma FetchWordPlain(s: string)
    requires s != [] && s[0] != ' ' && s[|s| - 1] != ','
    requires forall k :: 0 <= k < |s| ==> Neutral(s[k]) && s[k] != ' '
    ensures FetchWordSpec(s, 0) == Ok((s, |s|))
  {
    ScanPlain(s, 0);
    assert SkipSpaces(s, 0) == 0;
    assert s[0..|s|] == s;
  }

  /** A parenthesised group is one word even when it holds a space. */
  lemma FetchWordKeepsGroup()
    ensures FetchWordSpec("f(a b) c", 0) == Ok(("f(a b)", 6))
  {
    var s := "f(a b) c";
    GroupOpens();
    GroupCloses();
    assert SkipSpaces(s, 0) == 0;
    assert s[0..6] == "f(a b)";
  }

  lemma GroupOpens()
    ensures Scan("f(a b) c", 0, [], false) == Scan("f(a b) c", 5, ['('], false)
  {
    var s := "f(a b) c";
    assert Scan(s, 0, [], false) == Scan(s, 1, [], false) by {
      assert s[0] == 'f' && Step('f', [], false) == Some(([], false));
    }
    assert Scan(s, 1, [], false) == Scan(s, 2, ['('], false) by {
      var empty: seq<char> := [];
      assert empty + ['('] == ['('];
      assert s[1] == '(' && Step('(', [], false) == Some((['('], false));
    }
    assert Scan(s, 2, ['('], false) == Scan(s, 5, ['('], false) by {
      assert forall k :: 2 <= k < 5 ==> Neutral(s[k]) && (s[k] == ' ' ==> ['('] != []);
      ScanNeutral(s, 2, 5, ['(']);
    }
  }

  lemma GroupCloses()
    ensures Scan("f(a b) c", 5, ['('], false) == ScanEnd(6, 0)
  {
    var s := "f(a b) c";
    assert Scan(s, 5, ['('], false) == Scan(s, 6, [], false);
    assert Scan(s, 6, [], false) == ScanEnd(6, 0);
  }

  /** An unclosed bracket is the fatal parse error. */
  lemma FetchWordUnclosed()
    ensures FetchWordSpec("f(a", 0) == Err(Unbalanced)
  {
    var s := "f(a";
    assert Scan(s, 0, [], false) == Scan(s, 1, [], false);
    assert Scan(s, 1, [], false) == Scan(s, 2, ['('], false);
    assert Scan(s, 2, ['('], false) == Scan(s, 3, ['('], false);
    assert SkipSpaces(s, 0) == 0;
  }

  /** A closer that does not match the top is kept in the word and does not pop. */
  lemma StepIgnoresUnmatchedCloser(c: char, stk: seq<char>, q: bool)
    requires c in "])>" && Top(stk) != '[' && Top(stk) != '(' && Top(stk) != '<'
    ensures Step(c, stk, q) == Some((stk, q))
  {
  }

  // ---------------------------------------------------------------------------
  // parserTableName

  const CreateTable: string := "CREATE TABLE"

  /** The text before the first occurrence of `c` (strings.Split(s, c)[0]). */
  function Before(s: string, c: char): (r: string)
    ensures c !in r
    ensures c !in s ==> r == s
    ensures c in s ==> r + [c] <= s
  {
    var k := IndexOfChar(s, c);
    if k == -1 then s else s[..k]
  }

  /** The text after the first occurrence of `c`, or "" when there is none. */
  function After(s: string, c: char): (r: string)
    ensures c in s ==> Before(s, c) + [c] + r == s
  {
    var k := IndexOfChar(s, c);
    if k == -1 then [] else s[k + 1..]
  }

  /** The first token of strings.Fields on text without leading blanks. */
  function FirstToken(s: string): (r: string)
    ensures r <= s
    ensures forall k :: 0 <= k < |r| ==> !IsSpace(r[k])
    decreases |s|
  {
    if s == [] || IsSpace(s[0]) then [] else [s[0]] + FirstToken(s[1..])
  }

  /** The raw table name of a CREATE TABLE line; None when the line is not one or the name is
      empty. A backquoted name is the text between the first two backquotes; otherwise the
      first token, cut at its first `(`. */
  function RawTableName(s: string): (r: Option<string>)
    ensures r.Some? ==> HasPrefix(s, CreateTable) && r.value != []
    ensures !HasPrefix(s, CreateTable) ==> r == None
  {
    if !HasPrefix(s, CreateTable) then None
    else
      var remaining := TrimSpace(s[|CreateTable|..]);
      var name :=
        if HasPrefix(remaining, "`") then
          (if '`' in remaining[1..] then Before(remaining[1..], '`') else [])
        else Before(FirstToken(remaining), '(');
      if name == [] then None else Some(name)
  }

  /** The DDL after a recognised name: a dotted name sets the database and the table from its
      first two `.`-parts, backquotes trimmed; otherwise only the table. */
  function WithName(d: Ddl, name: string): (r: Ddl)
    ensures '.' in name ==> r == d.(dbName := TrimChar(Before(name, '.'), '`'),
                                    tableName := TrimChar(Before(After(name, '.'), '.'), '`'))
    ensures '.' !in name ==> r == d.(tableName := TrimChar(name, '`'))
    ensures r.ttl == d.ttl
  {
    if '.' in name then
      d.(dbName := TrimChar(Before(name, '.'), '`'), tableName := TrimChar(Before(After(name, '.'), '.'), '`'))
    else d.(tableName := TrimChar(name, '`'))
  }

  /** RawTableName once the text after CREATE TABLE is known. */
  lemma RawTableNameFrom(s: string, rest: string)
    requires HasPrefix(s, CreateTable) && TrimSpace(s[|CreateTable|..]) == rest && rest != []
    ensures rest[0] != '`' ==>
      (RawTableName(s) == if Before(FirstToken(rest), '(') == [] then None else Some(Before(FirstToken(rest), '(')))
    ensures rest[0] == '`' && '`' in rest[1..] ==>
      (RawTableName(s) == if Before(rest[1..], '`') == [] then None else Some(Before(rest[1..], '`')))
  {
    assert HasPrefix(rest, "`") <==> rest[0] == '`' by {
      assert rest[..1] == [rest[0]];
    }
  }

  lemma CreateLineTrim(s: string, rest: string)
    requires s == CreateTable + " " + rest && rest != [] && !IsSpace(rest[0]) && !IsSpace(rest[|rest| - 1])
    ensures HasPrefix(s, CreateTable) && TrimSpace(s[|CreateTable|..]) == rest
  {
    assert s[..|CreateTable|] == CreateTable;
    var t := s[|CreateTable|..];
    assert t == " " + rest;
    assert t[1..] == rest;
    assert TrimLeftSpace(t) == rest;
  }

  lemma QualifiedToken()
    ensures FirstToken("db.t (") == "db.t"
  {
    var r := "db.t (";
    assert r[1..] == "b.t (" && r[1..][1..] == ".t (" && r[1..][1..][1..] == "t (";
    assert r[1..][1..][1..][1..] == " (";
  }

  lemma QualifiedSplit()
    ensures Before("db.t", '.') == "db" && After("db.t", '.') == "t"
  {
    var n := "db.t";
    IndexOfCharFirst(n, '.', 2);
  }

  /** An unquoted qualified name sets both the database and the table. */
  lemma TableNameQualified()
    ensures RawTableName("CREATE TABLE db.t (") == Some("db.t")
    ensures WithName(Ddl("", "", ""), "db.t") == Ddl("t", "db", "")
  {
    assert "CREATE TABLE db.t (" == CreateTable + " " + "db.t (";
    CreateLineTrim("CREATE TABLE db.t (", "db.t (");
    RawTableNameFrom("CREATE TABLE db.t (", "db.t (");
    QualifiedToken();
    assert Before("db.t", '(') == "db.t";
    QualifiedNameSets();
  }

  lemma QualifiedNameSets()
    ensures WithName(Ddl("", "", ""), "db.t") == Ddl("t", "db", "")
  {
    QualifiedSplit();
    assert "db.t"[2] == '.';
    assert Before("t", '.') == "t";
    assert TrimChar("db", '`') == "db" && TrimChar("t", '`') == "t";
  }

  /** A backquoted name ends at the next backquote: whatever follows it is not read. */
  lemma {:induction false} BackquotedNameStops(n: string, tail: string)
    requires n != [] && '`' !in n && tail != [] && !IsSpace(tail[|tail| - 1])
    ensures RawTableName(CreateTable + " `" + n + "`" + tail) == Some(n)
  {
    var rest := "`" + n + "`" + tail;
    var s := CreateTable + " " + rest;
    assert CreateTable + " `" + n + "`" + tail == s;
    assert HasPrefix(s, CreateTable) && TrimSpace(s[|CreateTable|..]) == rest by {
      assert rest[|rest| - 1] == tail[|tail| - 1];
      CreateLineTrim(s, rest);
    }
    assert '`' in rest[1..] && Before(rest[1..], '`') == n by {
      var inner := rest[1..];
      assert inner == n + "`" + tail;
      assert inner[|n|] == '`' && inner[..|n|] == n;
      IndexOfCharFirst(inner, '`', |n|);
    }
    RawTableNameFrom(s, rest);
  }

  /** A name without dots or backquotes sets only the table, to itself. */
  lemma PlainNameSetsTable(n: string)
    requires '`' !in n && '.' !in n
    ensures WithName(Ddl("", "", ""), n) == Ddl(n, "", "")
  {
    if n != [] {
      assert n[0] in n && n[|n| - 1] in n;
    }
  }

  /** A backquoted qualified name ends at the second backquote, so `db`.`t` is read as the
      table "db" with no database. */
  lemma TableNameBackquotedQualified()
    ensures RawTableName("CREATE TABLE `db`.`t` (") == Some("db")
    ensures WithName(Ddl("", "", ""), "db") == Ddl("db", "", "")
  {
    assert "CREATE TABLE `db`.`t` (" == CreateTable + " `" + "db" + "`" + ".`t` (";
    BackquotedNameStops("db", ".`t` (");
    PlainNameSetsTable("db");
  }

  // ---------------------------------------------------------------------------
  // parserField

  /** The DEFAULT clause scan of parserField from index `i`: the kind and expression of the
      last `DEFAULT <word>` pair; it stops at the first empty token. */
  function Defaults(s: string, i: nat, kind: string, expr: string): (r: Result<(string, string), ParseError>)
    requires i <= |s|
    decreases |s| - i
  {
    match FetchWordSpec(s, i)
    case Err(e) => Err(e)
    case Ok(tn) =>
      var (tok, next) := tn;
      if TrimSpace(tok) == [] then Ok((kind, expr))
      else if ToUpper(TrimSpace(tok)) == "DEFAULT" then
        match FetchWordSpec(s, next)
        case Err(e) => Err(e)
        case Ok(vn) => Defaults(s, vn.1, "DEFAULT", TrimSpace(vn.0))
      else Defaults(s, next, kind, expr)
  }

  /** The column a field line declares: None for a line that does not start with a backquote. */
  function FieldOf(s: string): (r: Result<Option<Field>, ParseError>)
    ensures !HasPrefix(s, "`") ==> r == Ok(None)
    ensures r.Ok? && r.value.Some? ==> '`' !in r.value.value.name && !r.value.value.isMaterialized
    ensures r.Ok? && r.value.Some? ==> r.value.value.defaultKind in {"", "DEFAULT"}
    ensures r.Ok? && r.value.Some? ==>
      FetchWordSpec(s, 0).Ok?
      && r.value.value.name == RemoveChar(FetchWordSpec(s, 0).value.0, '`')
      && FetchWordSpec(s, FetchWordSpec(s, 0).value.1).Ok?
      && r.value.value.typ == FetchWordSpec(s, FetchWordSpec(s, 0).value.1).value.0
    ensures HasPrefix(s, "`") && FetchWordSpec(s, 0).Err? ==> r == Err(FetchWordSpec(s, 0).error)
    ensures HasPrefix(s, "`") ==> r != Ok(None)
  {
    if !HasPrefix(s, "`") then Ok(None)
    else
      match FetchWordSpec(s, 0)
      case Err(e) => Err(e)
      case Ok(nw) =>
        match FetchWordSpec(s, nw.1)
        case Err(e) => Err(e)
        case Ok(tw) =>
          match Defaults(s, tw.1, "", "")
          case Err(e) => Err(e)
          case Ok(d) =>
            DefaultsKind(s, tw.1);
            Ok(Some(Field(RemoveChar(nw.0, '`'), tw.0, d.0, d.1, false)))
  }

  lemma {:induction false} DefaultsKind(s: string, i: nat)
    requires i <= |s|
    ensures Defaults(s, i, "", "").Ok? ==> Defaults(s, i, "", "").value.0 in {"", "DEFAULT"}
  {
    DefaultsKindFrom(s, i, "", "");
  }

  lemma {:induction false} DefaultsKindFrom(s: string, i: nat, kind: string, expr: string)
    requires i <= |s| && kind in {"", "DEFAULT"}
    ensures Defaults(s, i, kind, expr).Ok? ==> Defaults(s, i, kind, expr).value.0 in {"", "DEFAULT"}
    decreases |s| - i
  {
    match FetchWordSpec(s, i)
    case Err(_) =>
    case Ok(tn) =>
      if TrimSpace(tn.0) != [] {
        if ToUpper(TrimSpace(tn.0)) == "DEFAULT" {
          match FetchWordSpec(s, tn.1)
          case Err(_) =>
          case Ok(vn) => DefaultsKindFrom(s, vn.1, "DEFAULT", TrimSpace(vn.0));
        } else {
          DefaultsKindFrom(s, tn.1, kind, expr);
        }
      }
  }

  /** What the DEFAULT scan of parserField reads after the type: a word, or a DEFAULT keyword
      (in any case) with the trimmed word that follows it. */
  datatype Attr = PlainWord(word: string) | DefaultOf(expr: string)

  /** The words the DEFAULT scan reads from index `i`, up to the first empty one. A plain word
      is never empty and never DEFAULT; the word after a DEFAULT is not itself a keyword. */
  function Attrs(s: string, i: nat): (r: Result<seq<Attr>, ParseError>)
    requires i <= |s|
    ensures r.Ok? ==> forall a :: a in r.value && a.PlainWord? ==> a.word != [] && ToUpper(a.word) != "DEFAULT"
    decreases |s| - i
  {
    match FetchWordSpec(s, i)
    case Err(e) => Err(e)
    case Ok(tn) =>
      var tok := TrimSpace(tn.0);
      if tok == [] then Ok([])
      else if ToUpper(tok) == "DEFAULT" then
        match FetchWordSpec(s, tn.1)
        case Err(e) => Err(e)
        case Ok(vn) =>
          match Attrs(s, vn.1)
          case Err(e) => Err(e)
          case Ok(rest) => Ok([DefaultOf(TrimSpace(vn.0))] + rest)
      else
        match Attrs(s, tn.1)
        case Err(e) => Err(e)
        case Ok(rest) => Ok([PlainWord(tok)] + rest)
  }

  /** The default the attributes leave, starting from `kind` and `expr`: the last DEFAULT wins,
      and with none the starting values stay. */
  function LastDefault(attrs: seq<Attr>, kind: string, expr: string): (r: (string, string))
    ensures (forall k :: 0 <= k < |attrs| ==> !attrs[k].DefaultOf?) ==> r == (kind, expr)
    ensures (exists k :: 0 <= k < |attrs| && attrs[k].DefaultOf?) ==>
      r.0 == "DEFAULT" && exists k :: 0 <= k < |attrs| && attrs[k] == DefaultOf(r.1) && forall j :: k < j < |attrs| ==> !attrs[j].DefaultOf?
    decreases |attrs|
  {
    if attrs == [] then (kind, expr)
    else
      var r := if attrs[0].DefaultOf? then LastDefault(attrs[1..], "DEFAULT", attrs[0].expr) else LastDefault(attrs[1..], kind, expr);
      assert forall k :: 0 < k < |attrs| ==> attrs[k] == attrs[1..][k - 1];
      if exists k :: 0 <= k < |attrs[1..]| && attrs[1..][k].DefaultOf? then
        var k :| 0 <= k < |attrs[1..]| && attrs[1..][k] == DefaultOf(r.1) && forall j :: k < j < |attrs[1..]| ==> !attrs[1..][j].DefaultOf?;
        assert attrs[k + 1] == DefaultOf(r.1);
        r
      else
        assert attrs[0].DefaultOf? ==> attrs[0] == DefaultOf(r.1) && forall j :: 0 < j < |attrs| ==> !attrs[j].DefaultOf?;
        r
  }

  /** The DEFAULT scan fails exactly when reading its words fails, and otherwise keeps the
      expression of the last DEFAULT keyword. */
  lemma {:induction false} DefaultsIsLast(s: string, i: nat, kind: string, expr: string)
    requires i <= |s|
    ensures Defaults(s, i, kind, expr).Ok? <==> Attrs(s, i).Ok?
    ensures Attrs(s, i).Ok? ==> Defaults(s, i, kind, expr).value == LastDefault(Attrs(s, i).value, kind, expr)
    decreases |s| - i
  {
    match FetchWordSpec(s, i)
    case Err(_) =>
    case Ok(tn) =>
      var tok := TrimSpace(tn.0);
      if tok != [] {
        if ToUpper(tok) == "DEFAULT" {
          match FetchWordSpec(s, tn.1)
          case Err(_) =>
          case Ok(vn) =>
            DefaultsIsLast(s, vn.1, "DEFAULT", TrimSpace(vn.0));
            if Attrs(s, vn.1).Ok? {
              var attrs := [DefaultOf(TrimSpace(vn.0))] + Attrs(s, vn.1).value;
              assert attrs[1..] == Attrs(s, vn.1).value;
            }
        } else {
          DefaultsIsLast(s, tn.1, kind, expr);
          if Attrs(s, tn.1).Ok? {
            var attrs := [PlainWord(tok)] + Attrs(s, tn.1).value;
            assert attrs[1..] == Attrs(s, tn.1).value;
          }
        }
      }
  }

  /** The default of a parsed column: its kind is DEFAULT exactly when some attribute word is
      DEFAULT in any case, and then its expression is the trimmed word after the last one;
      otherwise both are empty. */
  lemma FieldDefaultIsLast(s: string)
    requires FieldOf(s).Ok? && FieldOf(s).value.Some?
    ensures var f := FieldOf(s).value.value;
      var typeEnd := FetchWordSpec(s, FetchWordSpec(s, 0).value.1).value.1;
      Attrs(s, typeEnd).Ok?
      && (f.defaultKind == "DEFAULT" <==> exists k :: 0 <= k < |Attrs(s, typeEnd).value| && Attrs(s, typeEnd).value[k].DefaultOf?)
      && (f.defaultKind == "DEFAULT" ==> exists k ::
            0 <= k < |Attrs(s, typeEnd).value|
            && Attrs(s, typeEnd).value[k] == DefaultOf(f.defaultExpr)
            && forall j :: k < j < |Attrs(s, typeEnd).value| ==> !Attrs(s, typeEnd).value[j].DefaultOf?)
      && (f.defaultKind == "" ==> f.defaultExpr == "")
  {
    var typeEnd := FetchWordSpec(s, FetchWordSpec(s, 0).value.1).value.1;
    DefaultsIsLast(s, typeEnd, "", "");
  }

  /** A run of neutral, non-blank characters is consumed at depth zero. */
  lemma {:induction false} ScanRun(s: string, i: nat, j: nat)
    requires i <= j <= |s|
    requires forall k :: i <= k < j ==> Neutral(s[k]) && s[k] != ' ' && (k < |s| - 1 || s[k] != ',')
    ensures Scan(s, i, [], false) == Scan(s, j, [], false)
    decreases j - i
  {
    if i < j {
      ScanRun(s, i + 1, j);
    }
  }

  /** fetchWord on a plain word that starts at `i` after blanks from `b` and ends at `j`, at a
      blank or at the end of the line. */
  lemma FetchWordAt(s: string, b: nat, i: nat, j: nat)
    requires b <= i < j <= |s|
    requires forall k :: b <= k < i ==> s[k] == ' '
    requires forall k :: i <= k < j ==> Neutral(s[k]) && s[k] != ' ' && (k < |s| - 1 || s[k] != ',')
    requires j < |s| ==> s[j] == ' '
    ensures FetchWordSpec(s, b) == Ok((s[i..j], j))
  {
    SkipTo(s, b, i);
    ScanRun(s, i, j);
  }

  lemma {:induction false} SkipTo(s: string, b: nat, i: nat)
    requires b <= i < |s| && s[i] != ' '
    requires forall k :: b <= k < i ==> s[k] == ' '
    ensures SkipSpaces(s, b) == i
    decreases i - b
  {
    if b < i {
      SkipTo(s, b + 1, i);
    }
  }

  lemma FieldWord0(s: string)
    requires s == "`a` Int32 DEFAULT 5"
    ensures FetchWordSpec(s, 0) == Ok(("`a`", 3))
  {
    FetchWordAt(s, 0, 0, 3);
    assert s[0..3] == "`a`";
  }

  lemma FieldWord1(s: string)
    requires s == "`a` Int32 DEFAULT 5"
    ensures FetchWordSpec(s, 3) == Ok(("Int32", 9))
  {
    FetchWordAt(s, 3, 4, 9);
    assert forall k :: 0 <= k < 5 ==> s[4..9][k] == "Int32"[k];
    assert s[4..9] == "Int32";
  }

  lemma FieldWord2(s: string)
    requires s == "`a` Int32 DEFAULT 5"
    ensures FetchWordSpec(s, 9) == Ok(("DEFAULT", 17))
  {
    FetchWordAt(s, 9, 10, 17);
    assert s[10..17] == "DEFAULT";
  }

  lemma FieldWord3(s: string)
    requires s == "`a` Int32 DEFAULT 5"
    ensures FetchWordSpec(s, 17) == Ok(("5", 19))
  {
    FetchWordAt(s, 17, 18, 19);
    assert s[18..19] == "5";
  }

  lemma FieldWordEnd(s: string)
    requires s == "`a` Int32 DEFAULT 5"
    ensures FetchWordSpec(s, 19) == Ok(([], 19))
  {
  }

  lemma FieldDefaults(s: string)
    requires s == "`a` Int32 DEFAULT 5"
    ensures Defaults(s, 9, "", "") == Ok(("DEFAULT", "5"))
  {
    FieldWord2(s);
    FieldWord3(s);
    FieldWordEnd(s);
    assert TrimSpace("DEFAULT") == "DEFAULT";
    assert ToUpper("DEFAULT") == "DEFAULT";
    assert TrimSpace("5") == "5";
    assert Defaults(s, 19, "DEFAULT", "5") == Ok(("DEFAULT", "5"));
  }

  /** A field line yields its backquote-free name, its type and the word after DEFAULT. */
  lemma FieldWithDefault()
    ensures FieldOf("`a` Int32 DEFAULT 5") == Ok(Some(Field("a", "Int32", "DEFAULT", "5", false)))
  {
    var s := "`a` Int32 DEFAULT 5";
    assert HasPrefix(s, "`") by { assert s[..1] == "`"; }
    FieldWord0(s);
    FieldWord1(s);
    FieldDefaults(s);
    assert RemoveChar("`a`", '`') == "a";
  }

  // ---------------------------------------------------------------------------
  // parserTTL

  /** The TTL after a line: a TTL line replaces it; any other line collapses the current TTL
      to its innermost argument when that is non-empty. */
  function TtlAfter(ttl: string, s: string): (r: Result<string, ParseError>)
    ensures HasPrefix(ToLower(s), "ttl ") ==> r == Ok(s)
  {
    if HasPrefix(ToLower(s), "ttl ") then Ok(s)
    else
      match FetchVal(ttl)
      case None => Err(FetchValOverrun)
      case Some(v) => Ok(if |v| > 0 then v else ttl)
  }

  /** Once collapsed, the TTL stays as it is on further non-TTL lines. */
  lemma TtlCollapseStable(ttl: string, s1: string, s2: string)
    requires !HasPrefix(ToLower(s1), "ttl ") && !HasPrefix(ToLower(s2), "ttl ")
    requires TtlAfter(ttl, s1).Ok?
    ensures TtlAfter(TtlAfter(ttl, s1).value, s2) == TtlAfter(ttl, s1)
  {
    var v := FetchVal(ttl).value;
    if |v| > 0 {
      FetchValIdempotent(ttl);
    }
  }

  /** The DEFAULT loop of parserField from index `index`. */
  method ScanDefaults(s: string, start: nat) returns (r: Result<(string, string), ParseError>)
    requires start <= |s|
    ensures r == Defaults(s, start, "", "")
  {
    var kind: string := "";
    var expr: string := "";
    var index := start;
    while true
      invariant index <= |s|
      invariant Defaults(s, index, kind, expr) == Defaults(s, start, "", "")
      decreases |s| - index
    {
      var tn := FetchWord(s, index);
      if tn.Err? {
        return Err(tn.error);
      }
      var tok := tn.value.0;
      var next := tn.value.1;
      var tokTrim := TrimSpace(tok);
      if tokTrim == [] {
        break;
      }
      if ToUpper(tokTrim) == "DEFAULT" {
        var vn := FetchWord(s, next);
        if vn.Err? {
          return Err(vn.error);
        }
        kind := "DEFAULT";
        expr := TrimSpace(vn.value.0);
        index := vn.value.1;
        continue;
      }
      index := next;
    }
    return Ok((kind, expr));
  }

  // ---------------------------------------------------------------------------
  // The table being parsed

  /** parser.Table as the line handlers fill it. */
  class TableParser {
    var ddl: Ddl
    var fields: seq<Field>

    constructor ()
      ensures ddl == Ddl("", "", "") && fields == []
    {
      ddl := Ddl("", "", "");
      fields := [];
    }

    /** The parsed table as a value. */
    function Value(): (t: Table)
      reads this
      ensures t.ddl == ddl && t.fields == fields
    {
      Table(ddl, fields)
    }

    /** parserTableName */
    method ParseTableName(s: string) returns (ok: bool)
      modifies this
      ensures ok <==> RawTableName(s).Some?
      ensures ok ==> ddl == WithName(old(ddl), RawTableName(s).value)
      ensures !ok ==> ddl == old(ddl)
      ensures fields == old(fields)
    {
      if !HasPrefix(s, CreateTable) {
        return false;
      }
      var remaining := TrimSpace(s[|CreateTable|..]);
      var tableName: string := [];
      if HasPrefix(remaining, "`") {
        var endQuote := IndexOfChar(remaining[1..], '`');
        if endQuote != -1 {
          tableName := remaining[1..endQuote + 1];
          assert tableName == remaining[1..][..endQuote];
        }
      } else {
        var first := FirstToken(remaining);
        if |first| > 0 {
          tableName := first;
          if '(' in tableName {
            tableName := Before(tableName, '(');
          }
        }
      }
      if tableName == [] {
        return false;
      }
      if '.' in tableName {
        var names0 := Before(tableName, '.');
        var names1 := Before(After(tableName, '.'), '.');
        ddl := ddl.(dbName := TrimChar(names0, '`'), tableName := TrimChar(names1, '`'));
      } else {
        ddl := ddl.(tableName := TrimChar(tableName, '`'));
      }
      return true;
    }

    /** parserField: appends exactly one column for a field line. */
    method ParseField(s: string) returns (r: Result<bool, ParseError>)
      modifies this
      ensures FieldOf(s).Err? ==> r == Err(FieldOf(s).error) && fields == old(fields)
      ensures FieldOf(s) == Ok(None) ==> r == Ok(false) && fields == old(fields)
      ensures FieldOf(s).Ok? && FieldOf(s).value.Some? ==> r == Ok(true) && fields == old(fields) + [FieldOf(s).value.value]
      ensures ddl == old(ddl)
    {
      if !HasPrefix(s, "`") {
        return Ok(false);
      }
      var nw := FetchWord(s, 0);
      if nw.Err? {
        return Err(nw.error);
      }
      var tw := FetchWord(s, nw.value.1);
      if tw.Err? {
        return Err(tw.error);
      }
      var name := RemoveChar(nw.value.0, '`');
      var typ := tw.value.0;
      var d := ScanDefaults(s, tw.value.1);
      if d.Err? {
        return Err(d.error);
      }
      fields := fields + [Field(name, typ, d.value.0, d.value.1, false)];
      return Ok(true);
    }

    /** parserTTL */
    method ParseTTL(s: string) returns (r: Result<bool, ParseError>)
      modifies this
      ensures TtlAfter(old(ddl.ttl), s).Err? ==> r.Err? && ddl == old(ddl)
      ensures TtlAfter(old(ddl.ttl), s).Ok? ==>
        r == Ok(HasPrefix(ToLower(s), "ttl ")) && ddl == old(ddl).(ttl := TtlAfter(old(ddl.ttl), s).value)
      ensures fields == old(fields)
    {
      if HasPrefix(ToLower(s), "ttl ") {
        ddl := ddl.(ttl := s);
        return Ok(true);
      }
      var ttlRel := FetchValFromFunc(ddl.ttl);
      if ttlRel.None? {
        return Err(FetchValOverrun);
      }
      if |ttlRel.value| > 0 {
        ddl := ddl.(ttl := ttlRel.value);
      }
      return Ok(false);
    }
  }
}
