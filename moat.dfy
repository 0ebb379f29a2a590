/**
 * `parse_output` of test_moat.py: the reply text of a decoded webhook
 * `output` on the Python side. A string is returned as it is; a list gives
 * the `text` values of its dicts that have one, joined by a single newline;
 * anything else gives `str(output)`.
 */
module MoatTest {
  import opened Wrappers
  import opened Seqs
  import opened Decimal
  import opened JsValues
  import SimpleWidget

  /** The exception `'\n'.join` raises on an item that is not a `str`. */
  datatype PyError = TypeError

  const TEXT_SEPARATOR: string := "\n"

  // ---------------------------------------------------------------------------
  // `str` and `repr` of decoded JSON values

  /** The two lower-case hexadecimal digits of a code below 256, as in `\x1b`. */
  function HexByte(n: nat): (s: string)
    requires n < 256
    ensures |s| == 2 && IsLowerHexDigit(s[0]) && IsLowerHexDigit(s[1])
    ensures 16 * HexValue(s[0]) + HexValue(s[1]) == n
  {
    [HexDigit(n / 16), HexDigit(n % 16)]
  }

  function HexDigit(d: nat): char
    requires d < 16
  {
    if d < 10 then ('0' as int + d) as char else ('a' as int + d - 10) as char
  }

  /** The characters Python writes as hexadecimal digits: 0-9 and a-f. */
  predicate IsLowerHexDigit(c: char)
  {
    '0' <= c <= '9' || 'a' <= c <= 'f'
  }

  /** The value a reader gives a hexadecimal digit. */
  function HexValue(c: char): nat
    requires IsLowerHexDigit(c)
  {
    if c <= '9' then c as int - '0' as int else c as int - 'a' as int + 10
  }

  /**
   * `repr` quotes with single quotes unless the text holds a single quote and
   * no double quote: the chosen quote occurs in the text only when both kinds
   * do, and double quotes are used only for text that has a single quote and
   * no double quote.
   */
  function QuoteFor(s: string): (q: char)
    ensures q == '\'' || q == '"'
    ensures q in s ==> '\'' in s && '"' in s
    ensures q == '"' ==> '\'' in s && '"' !in s
  {
    if '\'' in s && '"' !in s then '"' else '\''
  }

  /**
   * One character inside a `repr` quoted with `q`: the backslash, the quote
   * itself, tab, newline and carriage return are escaped; other control
   * characters, DEL and the C1 block up to U+00A0 become `\xNN`.
   */
  function EscapeChar(c: char, q: char): string
  {
    if c == '\\' then "\\\\"
    else if c == q then ['\\', q]
    else if c == '\t' then "\\t"
    else if c == '\n' then "\\n"
    else if c == '\r' then "\\r"
    else if c < ' ' || ('\U{007F}' <= c <= '\U{00A0}') then "\\x" + HexByte(c as nat)
    else [c]
  }

  /** A character that `repr` writes as itself. */
  predicate PlainChar(c: char, q: char)
  {
    c != '\\' && c != q && ' ' <= c && !('\U{007F}' <= c <= '\U{00A0}')
  }

  function EscapeAll(s: string, q: char): string
  {
    if |s| == 0 then "" else EscapeChar(s[0], q) + EscapeAll(s[1..], q)
  }

  /** `repr(s)` for a `str`. */
  function QuoteString(s: string): string
  {
    var q := QuoteFor(s);
    [q] + EscapeAll(s, q) + [q]
  }

  /** Text made of plain characters is written between the quotes unchanged. */
  lemma {:induction false} EscapeAllPlain(s: string, q: char)
    requires forall i :: 0 <= i < |s| ==> PlainChar(s[i], q)
    ensures EscapeAll(s, q) == s
  {
    if |s| > 0 {
      EscapeAllPlain(s[1..], q);
      assert s == [s[0]] + s[1..];
    }
  }

  /** `repr` of a string with no quote, backslash or control character is the string in single quotes. */
  lemma QuotePlain(s: string)
    requires forall i :: 0 <= i < |s| ==> PlainChar(s[i], '\'') && s[i] != '"'
    ensures QuoteString(s) == "'" + s + "'"
  {
    assert QuoteFor(s) == '\'';
    EscapeAllPlain(s, '\'');
  }

  /** `repr(v)` of a decoded JSON value: None, True/False, the integer, the quoted text, `[...]` and `{k: v}`. */
  function PyRepr(v: Json): string
    decreases v
  {
    match v
    case JNull => "None"
    case JBool(b) => if b then "True" else "False"
    case JNum(n) => IntToString(n)
    case JStr(s) => QuoteString(s)
    case JArr(items) =>
      "[" + Join(seq(|items|, i requires 0 <= i < |items| => PyRepr(items[i])), ", ") + "]"
    case JObj(fields) =>
      "{" + Join(seq(|fields|, i requires 0 <= i < |fields| => ReprPair(fields[i].0, PyRepr(fields[i].1))), ", ") + "}"
  }

  /** `repr(k): repr(value)` of one member of a dict, given the value's `repr`. */
  function ReprPair(key: string, valueRepr: string): string
  {
    QuoteString(key) + ": " + valueRepr
  }

  /** `str(v)`: the text itself for a `str`, `repr` for everything else. */
  function PyStr(v: Json): string
  {
    if v.JStr? then v.s else PyRepr(v)
  }

  /** `str` of the scalars: None, True and False by name, integers in decimal. */
  lemma StrOfScalars(n: int)
    ensures PyStr(JNull) == "None" && PyStr(JBool(true)) == "True" && PyStr(JBool(false)) == "False"
    ensures PyStr(JNum(n)) == IntToString(n)
  {
  }

  /** `str` of a one-member dict with an integer: `{'k': n}` for a plain key. */
  lemma StrOfDict(k: string, n: int)
    requires forall i :: 0 <= i < |k| ==> PlainChar(k[i], '\'') && k[i] != '"'
    ensures PyStr(JObj([(k, JNum(n))])) == "{" + "'" + k + "'" + ": " + IntToString(n) + "}"
  {
    var v := JObj([(k, JNum(n))]);
    var pair := ReprPair(k, PyRepr(JNum(n)));
    assert pair == "'" + k + "'" + ": " + IntToString(n) by {
      QuotePlain(k);
    }
    assert PyRepr(v) == "{" + pair + "}" by {
      var pairs := seq(1, i requires 0 <= i < 1 => ReprPair(v.fields[i].0, PyRepr(v.fields[i].1)));
      assert pairs == [pair];
    }
  }

  // ---------------------------------------------------------------------------
  // The list case (lines 12-18)

  /** `isinstance(item, dict) and 'text' in item`. */
  predicate IsTextDict(item: Json)
  {
    item.JObj? && Lookup(item.fields, "text").Value?
  }

  /** `item['text']` of a text dict. */
  function TextOf(item: Json): Json
    requires IsTextDict(item)
  {
    Lookup(item.fields, "text").v
  }

  /** The list `texts` the loop of lines 14-17 builds: the `text` values of the text dicts, in order. */
  function TextValues(items: seq<Json>): (texts: seq<Json>)
    ensures |texts| <= |items|
  {
    if |items| == 0 then []
    else
      var last := items[|items| - 1];
      TextValues(items[..|items| - 1]) + (if IsTextDict(last) then [TextOf(last)] else [])
  }

  /** `'\n'.join(texts)`: a TypeError on any item that is not a `str`, else the texts with a newline between neighbours. */
  function JoinTexts(texts: seq<Json>): Result<string, PyError>
  {
    if forall i :: 0 <= i < |texts| ==> texts[i].JStr? then
      Success(Join(seq(|texts|, i requires 0 <= i < |texts| => texts[i].s), TEXT_SEPARATOR))
    else
      Failure(PyError.TypeError)
  }

  /**
   * `parse_output(output)` (lines 8-19), with its loop. A string comes back
   * unchanged; a list gives the joined text values of its text dicts; any
   * other value gives `str(output)`.
   */
  method ParseOutput(output: Json) returns (r: Result<string, PyError>)
    ensures output.JStr? ==> r == Success(output.s)
    ensures output.JArr? ==> r == JoinTexts(TextValues(output.items))
    ensures !output.JStr? && !output.JArr? ==> r == Success(PyRepr(output))
  {
    if output.JStr? {
      return Success(output.s);
    } else if output.JArr? {
      var items := output.items;
      var texts: seq<Json> := [];
      for i := 0 to |items|
        invariant texts == TextValues(items[..i])
      {
        var item := items[i];
        assert items[..i + 1][..i] == items[..i];
        if item.JObj? && Lookup(item.fields, "text").Value? {
          texts := texts + [Lookup(item.fields, "text").v];
        }
      }
      assert items[..|items|] == items;
      return JoinTexts(texts);
    }
    return Success(PyStr(output));
  }

  /** The texts of `a + b` are the texts of `a`, then those of `b`. */
  lemma {:induction false} TextValuesConcat(a: seq<Json>, b: seq<Json>)
    ensures TextValues(a + b) == TextValues(a) + TextValues(b)
    decreases |b|
  {
    if |b| == 0 {
      assert a + b == a;
    } else {
      var c := b[..|b| - 1];
      assert (a + b)[..|a + b| - 1] == a + c;
      assert (a + b)[|a + b| - 1] == b[|b| - 1];
      TextValuesConcat(a, c);
    }
  }

  /** One item contributes its `text` when it is a dict that has one, and nothing otherwise. */
  lemma TextValuesOne(item: Json)
    ensures TextValues([item]) == if IsTextDict(item) then [TextOf(item)] else []
  {
    assert [item][..0] == [];
  }

  /** Items that are not dicts, and dicts without `text`, contribute nothing wherever they stand. */
  lemma TextValuesSkip(a: seq<Json>, x: Json, b: seq<Json>)
    requires !IsTextDict(x)
    ensures TextValues(a + [x] + b) == TextValues(a + b)
  {
    TextValuesConcat(a + [x], b);
    TextValuesConcat(a, [x]);
    TextValuesConcat(a, b);
    TextValuesOne(x);
  }

  /** A list with no text dict, the empty list included, gives the empty string. */
  lemma {:induction false} NoTextDictsGiveEmpty(items: seq<Json>)
    requires forall i :: 0 <= i < |items| ==> !IsTextDict(items[i])
    ensures TextValues(items) == []
    ensures JoinTexts(TextValues(items)) == Success("")
  {
    if |items| > 0 {
      NoTextDictsGiveEmpty(items[..|items| - 1]);
    }
  }

  /** A `text` that is not a string, such as None, makes the join raise instead of being skipped. */
  lemma NonStringTextRaises(a: seq<Json>, x: Json, b: seq<Json>)
    requires IsTextDict(x) && !TextOf(x).JStr?
    ensures JoinTexts(TextValues(a + [x] + b)).Failure?
  {
    TextValuesConcat(a + [x], b);
    TextValuesConcat(a, [x]);
    TextValuesOne(x);
    assert TextValues(a + [x] + b)[|TextValues(a)|] == TextOf(x);
    JoinTextsRaises(TextValues(a + [x] + b), |TextValues(a)|);
  }

  /** A dict `{"text": s}`. */
  function TextDict(s: string): Json
  {
    JObj([("text", JStr(s))])
  }

  /** Two text dicts around any item that is not one read as their texts joined by one newline. */
  lemma TextAroundOther(a: string, x: Json, b: string)
    requires !IsTextDict(x)
    ensures JoinTexts(TextValues([TextDict(a), x, TextDict(b)])) == Success(a + TEXT_SEPARATOR + b)
  {
    assert [TextDict(a), x, TextDict(b)] == [TextDict(a)] + [x] + [TextDict(b)];
    TextValuesSkip([TextDict(a)], x, [TextDict(b)]);
    TextValuesConcat([TextDict(a)], [TextDict(b)]);
    TextValuesOne(TextDict(a));
    TextValuesOne(TextDict(b));
    assert TextValues([TextDict(a), x, TextDict(b)]) == [JStr(a), JStr(b)];
    JoinTwoTexts(a, b);
  }

  /** The list `[{"text": "A"}, 5, {"text": "B"}]` reads "A\nB": the number is skipped. */
  lemma MoatExample()
    ensures JoinTexts(TextValues([TextDict("A"), JNum(5), TextDict("B")])) == Success("A\nB")
  {
    TextAroundOther("A", JNum(5), "B");
    assert "A" + TEXT_SEPARATOR + "B" == "A\nB";
  }

  /**
   * The join taken one text at a time: a leading string is followed by one
   * newline and the join of the rest, and a failure anywhere in the rest
   * fails the whole join.
   */
  lemma JoinTextsCons(t: Json, rest: seq<Json>)
    ensures !t.JStr? ==> JoinTexts([t] + rest).Failure?
    ensures t.JStr? && rest == [] ==> JoinTexts([t] + rest) == Success(t.s)
    ensures t.JStr? && rest != [] ==>
              JoinTexts([t] + rest) == (match JoinTexts(rest)
                                        case Success(j) => Success(t.s + TEXT_SEPARATOR + j)
                                        case Failure(e) => Failure(e))
  {
    var texts := [t] + rest;
    assert texts[0] == t;
    if t.JStr? && rest != [] {
      assert forall i :: 0 <= i < |rest| ==> rest[i] == texts[i + 1];
      if forall i :: 0 <= i < |rest| ==> rest[i].JStr? {
        var strs := seq(|texts|, i requires 0 <= i < |texts| => texts[i].s);
        var restStrs := seq(|rest|, i requires 0 <= i < |rest| => rest[i].s);
        assert strs[1..] == restStrs;
        assert forall i :: 0 <= i < |texts| ==> texts[i].JStr? by {
          forall i | 0 <= i < |texts| ensures texts[i].JStr? {
            if i > 0 { assert texts[i] == rest[i - 1]; }
          }
        }
      } else {
        var k :| 0 <= k < |rest| && !rest[k].JStr?;
        assert !texts[k + 1].JStr?;
      }
    }
  }

  /** A join raises as soon as any one of the collected texts is not a string. */
  lemma JoinTextsRaises(texts: seq<Json>, k: nat)
    requires k < |texts| && !texts[k].JStr?
    ensures JoinTexts(texts).Failure?
  {
  }

  /** Joining two strings puts one newline between them. */
  lemma JoinTwoTexts(a: string, b: string)
    ensures JoinTexts([JStr(a), JStr(b)]) == Success(a + TEXT_SEPARATOR + b)
  {
    var texts := [JStr(a), JStr(b)];
    var strs := seq(|texts|, i requires 0 <= i < |texts| => texts[i].s);
    assert strs == [a, b];
    assert Join(strs, TEXT_SEPARATOR) == a + TEXT_SEPARATOR + b by {
      assert strs[1..] == [b];
    }
  }

  // ---------------------------------------------------------------------------
  // Against the widget's extraction

  /** The widget reads two text blocks as their texts joined by a blank line. */
  lemma WidgetTwoTexts(a: string, b: string)
    ensures SimpleWidget.ExtractReply(SimpleWidget.OutputBody(JArr([SimpleWidget.TextBlock(a), SimpleWidget.TextBlock(b)])))
            == Success(a + "\n\n" + b)
  {
    var blocks := [SimpleWidget.TextBlock(a), SimpleWidget.TextBlock(b)];
    assert SimpleWidget.ReplyParts(blocks) == [a, b] by {
      SimpleWidget.TextBlockText(a);
      SimpleWidget.TextBlockText(b);
      assert blocks == [SimpleWidget.TextBlock(a)] + [SimpleWidget.TextBlock(b)];
      SimpleWidget.ReplyPartsConcat([SimpleWidget.TextBlock(a)], [SimpleWidget.TextBlock(b)]);
      SimpleWidget.ReplyPartsOne(SimpleWidget.TextBlock(a));
      SimpleWidget.ReplyPartsOne(SimpleWidget.TextBlock(b));
    }
    assert Join([a, b], SimpleWidget.BLOCK_SEPARATOR) == a + "\n\n" + b by {
      assert [a, b][1..] == [b];
    }
    assert JNull !in blocks;
    SimpleWidget.ExtractBlockList(blocks);
  }

  /** `parse_output` reads the same two blocks as their texts joined by one newline. */
  lemma MoatTwoTexts(a: string, b: string)
    ensures JoinTexts(TextValues([SimpleWidget.TextBlock(a), SimpleWidget.TextBlock(b)])) == Success(a + "\n" + b)
  {
    var blocks := [SimpleWidget.TextBlock(a), SimpleWidget.TextBlock(b)];
    assert TextValues(blocks) == [JStr(a), JStr(b)] by {
      SimpleWidget.TextBlockText(a);
      SimpleWidget.TextBlockText(b);
      assert blocks == [SimpleWidget.TextBlock(a)] + [SimpleWidget.TextBlock(b)];
      TextValuesConcat([SimpleWidget.TextBlock(a)], [SimpleWidget.TextBlock(b)]);
      TextValuesOne(SimpleWidget.TextBlock(a));
      TextValuesOne(SimpleWidget.TextBlock(b));
      assert Lookup(SimpleWidget.TextBlock(a).fields, "text") == Value(JStr(a));
      assert Lookup(SimpleWidget.TextBlock(b).fields, "text") == Value(JStr(b));
    }
    JoinTwoTexts(a, b);
  }

  /**
   * A block `{type: "text"}` with no `text` is kept by the widget as an empty
   * part but skipped by `parse_output`.
   */
  lemma TypedBlockWithoutText()
    ensures SimpleWidget.IsTextBlock(JObj([("type", JStr("text"))]))
    ensures !IsTextDict(JObj([("type", JStr("text"))]))
  {
    assert Prop(JObj([("type", JStr("text"))]), "type") == Value(JStr("text"));
  }
}
