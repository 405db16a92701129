/** Splitting a possibly qualified SQLite table name (src/sqlx_store.rs, `index_target`). */
module SqliteName {
  import opened Common

  predicate Opens(c: char) {
    c == '"' || c == '\'' || c == '`' || c == '['
  }

  /** The delimiter that ends what `c` opens. */
  function Closer(c: char): char {
    if c == '[' then ']' else c
  }

  /**
   * The position after the quoted part whose contents start at `i`; the symmetric
   * delimiters stand for themselves when doubled, the bracket never does.
   */
  function AfterQuote(table: string, i: nat, delimiter: char): (end: nat)
    requires i <= |table|
    ensures i <= end <= |table|
    decreases |table| - i
  {
    if i == |table| then i
    else if table[i] != delimiter then AfterQuote(table, i + 1, delimiter)
    else if delimiter != ']' && i + 1 < |table| && table[i + 1] == delimiter then AfterQuote(table, i + 2, delimiter)
    else i + 1
  }

  /** The first dot outside quotes at or after `i`, where `i` is outside quotes. */
  function FirstDot(table: string, i: nat): (dot: Option<nat>)
    requires i <= |table|
    ensures dot.Some? ==> i <= dot.value < |table| && table[dot.value] == '.'
    decreases |table| - i
  {
    if i == |table| then None
    else if table[i] == '.' then Some(i)
    else if Opens(table[i]) then FirstDot(table, AfterQuote(table, i + 1, Closer(table[i])))
    else FirstDot(table, i + 1)
  }

  predicate IsWhite(c: char) {
    '\t' <= c <= '\r' || c == ' ' || c == '\U{85}' || c == '\U{A0}' || c == '\U{1680}'
    || '\U{2000}' <= c <= '\U{200A}' || c == '\U{2028}' || c == '\U{2029}' || c == '\U{202F}'
    || c == '\U{205F}' || c == '\U{3000}'
  }

  function TrimStart(s: string): string {
    if s != "" && IsWhite(s[0]) then TrimStart(s[1..]) else s
  }

  function TrimEnd(s: string): string {
    if s != "" && IsWhite(s[|s| - 1]) then TrimEnd(s[..|s| - 1]) else s
  }

  function Trim(s: string): string {
    TrimEnd(TrimStart(s))
  }

  /** Trimming takes white space off both ends and nothing else. */
  lemma TrimIsExact(s: string) returns (i: nat, j: nat)
    ensures i <= j <= |s| && Trim(s) == s[i..j]
    ensures (forall k :: 0 <= k < i || j <= k < |s| ==> IsWhite(s[k]))
    ensures i < j ==> !IsWhite(s[i]) && !IsWhite(s[j - 1])
  {
    i := TrimmedStart(s);
    j := TrimmedEnd(s[i..]);
    j := i + j;
    assert s[i..][..j - i] == s[i..j];
  }

  lemma {:induction false} TrimmedStart(s: string) returns (i: nat)
    ensures i <= |s| && TrimStart(s) == s[i..]
    ensures (forall k :: 0 <= k < i ==> IsWhite(s[k])) && (i < |s| ==> !IsWhite(s[i]))
    decreases |s|
  {
    if s != "" && IsWhite(s[0]) {
      var rest := s[1..];
      var n := TrimmedStart(rest);
      i := n + 1;
      forall k | 0 <= k < i
        ensures IsWhite(s[k])
      {
        assert k > 0 ==> s[k] == rest[k - 1];
      }
    } else {
      i := 0;
    }
  }

  lemma {:induction false} TrimmedEnd(s: string) returns (j: nat)
    ensures j <= |s| && TrimEnd(s) == s[..j]
    ensures (forall k :: j <= k < |s| ==> IsWhite(s[k])) && (j > 0 ==> !IsWhite(s[j - 1]))
    ensures |s| > 0 && !IsWhite(s[0]) ==> j > 0
    decreases |s|
  {
    if s != "" && IsWhite(s[|s| - 1]) {
      var t := s[..|s| - 1];
      j := TrimmedEnd(t);
      assert forall k :: j <= k < |t| ==> IsWhite(t[k]);
      assert s[..j] == t[..j];
    } else {
      j := |s|;
    }
  }

  /**
   * The name to create the index under and the table to create it on. `index` is
   * the hashed index name; a schema before the first unquoted dot qualifies it.
   */
  method IndexTarget(table: string, index: string) returns (name: string, target: string)
    ensures match FirstDot(table, 0)
            case Some(dot) => name == Trim(table[..dot]) + "." + index && target == Trim(table[dot + 1..])
            case None => name == index && target == table
  {
    var quote: Option<char> := None;
    var position := 0;
    while position < |table|
      invariant position <= |table|
      invariant FirstDot(table, 0) ==
                FirstDot(table, if quote.Some? then AfterQuote(table, position, quote.value) else position)
    {
      var character := table[position];
      var next := position + 1;
      if quote.Some? {
        var delimiter := quote.value;
        if character == delimiter {
          if delimiter != ']' && next < |table| && table[next] == delimiter {
            next := next + 1;
          } else {
            quote := None;
          }
        }
      } else if character == '"' || character == '\'' || character == '`' {
        quote := Some(character);
      } else if character == '[' {
        quote := Some(']');
      } else if character == '.' {
        return Trim(table[..position]) + "." + index, Trim(table[position + 1..]);
      }
      position := next;
    }
    return index, table;
  }

  // ----- What the split means for quoted identifiers -----

  /** `name` with its delimiter doubled, as SQL writes it between quotes. */
  function Doubled(name: string, delimiter: char): string {
    if name == "" then ""
    else (if name[0] == delimiter then [delimiter, delimiter] else [name[0]]) + Doubled(name[1..], delimiter)
  }

  /** An identifier between its delimiters; brackets have no escape. */
  function Quoted(name: string, opener: char): string {
    if opener == '[' then "[" + name + "]" else [opener] + Doubled(name, opener) + [opener]
  }

  // ----- Names in general -----

  /** A character outside quotes, neither dot nor opening delimiter, or a quoted identifier. */
  datatype Part = Bare(c: char) | InQuotes(name: string, opener: char)

  predicate WellFormed(part: Part) {
    match part
    case Bare(c) => c != '.' && c != '"' && c != '\'' && c != '`' && c != '['
    case InQuotes(name, opener) => opener == '"' || opener == '\'' || opener == '`' || (opener == '[' && ']' !in name)
  }

  function Text(part: Part): (text: string)
    ensures text != ""
  {
    match part
    case Bare(c) => [c]
    case InQuotes(name, opener) => Quoted(name, opener)
  }

  function Texts(parts: seq<Part>): string {
    if parts == [] then "" else Text(parts[0]) + Texts(parts[1..])
  }

  /** `table` reads `text` from position `i`. */
  ghost predicate At(table: string, i: nat, text: string) {
    i + |text| <= |table| && forall k :: 0 <= k < |text| ==> table[i + k] == text[k]
  }

  /** A quoted part is not followed at once by its own delimiter, which would double it. */
  ghost predicate Ends(table: string, end: nat, part: Part) {
    part.InQuotes? && part.opener != '[' && end < |table| ==> table[end] != part.opener
  }

  lemma AtTail(table: string, i: nat, head: string, tail: string)
    requires At(table, i, head + tail)
    ensures At(table, i, head) && At(table, i + |head|, tail)
  {
    assert forall k :: 0 <= k < |head| ==> head[k] == (head + tail)[k];
    forall k | 0 <= k < |tail|
      ensures table[i + |head| + k] == tail[k]
    {
      assert (head + tail)[|head| + k] == tail[k];
    }
  }

  lemma AtFirst(table: string, i: nat, text: string)
    requires At(table, i, text) && text != ""
    ensures i < |table| && table[i] == text[0] && i + |text| <= |table|
  {
    assert table[i + 0] == text[0];
  }

  lemma {:induction false} AfterDoubled(table: string, i: nat, name: string, delimiter: char)
    requires delimiter != ']' && At(table, i, Doubled(name, delimiter) + [delimiter])
    requires Ends(table, i + |Doubled(name, delimiter)| + 1, InQuotes(name, delimiter)) && delimiter != '['
    ensures AfterQuote(table, i, delimiter) == i + |Doubled(name, delimiter)| + 1
    decreases |name|
  {
    var d := Doubled(name, delimiter);
    AtTail(table, i, d, [delimiter]);
    if name != "" {
      var head := if name[0] == delimiter then [delimiter, delimiter] else [name[0]];
      var rest := Doubled(name[1..], delimiter);
      assert d + [delimiter] == head + (rest + [delimiter]);
      AtTail(table, i, head, rest + [delimiter]);
      AfterDoubled(table, i + |head|, name[1..], delimiter);
      assert table[i + 0] == head[0] && (|head| > 1 ==> table[i + 1] == head[1]);
    } else {
      AtFirst(table, i, [delimiter]);
    }
  }

  lemma {:induction false} AfterBracket(table: string, i: nat, name: string)
    requires ']' !in name && At(table, i, name + "]")
    ensures AfterQuote(table, i, ']') == i + |name| + 1
    decreases |name|
  {
    if name != "" {
      assert name + "]" == [name[0]] + (name[1..] + "]");
      AtTail(table, i, [name[0]], name[1..] + "]");
      AfterBracket(table, i + 1, name[1..]);
      AtFirst(table, i, [name[0]]);
    } else {
      AtFirst(table, i, name + "]");
    }
  }

  /** The scan passes over one part. */
  lemma SkipPart(table: string, i: nat, part: Part)
    requires WellFormed(part) && At(table, i, Text(part)) && Ends(table, i + |Text(part)|, part)
    ensures FirstDot(table, i) == FirstDot(table, i + |Text(part)|)
  {
    AtFirst(table, i, Text(part));
    hide At, AfterQuote, Doubled;
    if part.InQuotes? {
      if part.opener == '[' {
        assert Text(part) == "[" + (part.name + "]");
        AtTail(table, i, "[", part.name + "]");
        AfterBracket(table, i + 1, part.name);
      } else {
        assert Text(part) == [part.opener] + (Doubled(part.name, part.opener) + [part.opener]);
        AtTail(table, i, [part.opener], Doubled(part.name, part.opener) + [part.opener]);
        AfterDoubled(table, i + 1, part.name, part.opener);
      }
    }
  }

  /** No quoted part is followed at once by its own delimiter. */
  ghost predicate Separated(parts: seq<Part>) {
    && (forall k :: 0 <= k < |parts| ==> WellFormed(parts[k]))
    && forall k, m :: 0 <= k < m < |parts| && m == k + 1 && parts[k].InQuotes? && parts[m].InQuotes? ==>
         parts[k].opener == '[' || parts[m].opener != parts[k].opener
  }

  /**
   * For every name made of bare characters and quoted identifiers, in any order,
   * the scan finds the dot that follows it, or none at the end of the table name.
   */
  lemma {:induction false} NameSplits(table: string, i: nat, parts: seq<Part>)
    requires Separated(parts) && At(table, i, Texts(parts))
    requires var end := i + |Texts(parts)|; end == |table| || table[end] == '.'
    ensures var end := i + |Texts(parts)|; FirstDot(table, i) == if end == |table| then None else Some(end)
    decreases |parts|
  {
    hide *;
    AtEnd(table, i, Texts(parts));
    if parts == [] {
      NoText(parts);
      NothingLeft(table, i);
    } else {
      TextsOf(parts);
      var first, rest := Text(parts[0]), Texts(parts[1..]);
      AtTail(table, i, first, rest);
      NextPart(table, i + |first|, parts);
      SkipPart(table, i, parts[0]);
      NameSplits(table, i + |first|, parts[1..]);
    }
  }

  lemma NoText(parts: seq<Part>)
    requires parts == []
    ensures Texts(parts) == ""
  {
  }

  lemma NothingLeft(table: string, i: nat)
    requires i <= |table| && (i == |table| || table[i] == '.')
    ensures FirstDot(table, i) == if i == |table| then None else Some(i)
  {
  }

  lemma AtEnd(table: string, i: nat, text: string)
    requires At(table, i, text)
    ensures i + |text| <= |table|
  {
  }

  lemma TextsOf(parts: seq<Part>)
    requires parts != []
    ensures Texts(parts) == Text(parts[0]) + Texts(parts[1..])
    ensures |Texts(parts)| == |Text(parts[0])| + |Texts(parts[1..])|
  {
  }

  /** Where a part ends, the next one or the end of the name begins. */
  lemma NextPart(table: string, next: nat, parts: seq<Part>)
    requires Separated(parts) && parts != [] && At(table, next, Texts(parts[1..]))
    requires next + |Texts(parts[1..])| <= |table|
    requires next + |Texts(parts[1..])| < |table| ==> table[next + |Texts(parts[1..])|] == '.'
    ensures WellFormed(parts[0]) && Separated(parts[1..]) && Ends(table, next, parts[0])
  {
    if |parts| > 1 {
      assert parts[1..][0] == parts[1] && WellFormed(parts[1]);
      TextsOf(parts[1..]);
      AtFirst(table, next, Texts(parts[1..]));
    }
  }

  /**
   * However many dots, quotes or spaces a quoted schema contains, the name is
   * split right after it; brackets can quote everything but their own closer.
   */
  lemma {:induction false} QuotedSchemaSplits(schema: string, opener: char, rest: string)
    requires opener == '"' || opener == '\'' || opener == '`' || (opener == '[' && ']' !in schema)
    ensures var q := Quoted(schema, opener);
            FirstDot(q + "." + rest, 0) == Some(|q|)
  {
    var q, parts := Quoted(schema, opener), [InQuotes(schema, opener)];
    assert Texts(parts) == q;
    assert (q + "." + rest)[|q|] == '.';
    NameSplits(q + "." + rest, 0, parts);
  }

  /** A lone quoted identifier, dots and all, is never split. */
  lemma {:induction false} QuotedTableIsWhole(table: string, opener: char)
    requires opener == '"' || opener == '\'' || opener == '`' || (opener == '[' && ']' !in table)
    ensures FirstDot(Quoted(table, opener), 0) == None
  {
    var parts := [InQuotes(table, opener)];
    assert Texts(parts) == Quoted(table, opener);
    NameSplits(Quoted(table, opener), 0, parts);
  }

  /** Without quotes, the split is at the first dot of all, if there is one. */
  lemma {:induction false} PlainNameSplits(table: string, i: nat)
    requires i <= |table| && forall k :: i <= k < |table| ==> !Opens(table[k])
    ensures match FirstDot(table, i)
            case Some(dot) => forall k :: i <= k < dot ==> table[k] != '.'
            case None => forall k :: i <= k < |table| ==> table[k] != '.'
    decreases |table| - i
  {
    if i < |table| && table[i] != '.' {
      PlainNameSplits(table, i + 1);
    }
  }
}
