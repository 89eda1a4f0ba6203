/** The metadata dictionary of BoxCLI/Commands/MetadataSubCommands/MetadataSubCommandBase.cs
    and the parser of the `key=value&key=value` option. A
    `Dictionary<string, object>` is an insertion-ordered list of entries with
    distinct keys; `Dictionary.Add` fails on a key already present. */
module MetadataValues {
  import opened Wrappers
  import opened Strings
  import opened Decimals
  import opened CommandBase

  /** A metadata value: a string, a decimal, or null. */
  datatype Value = Text(s: string) | Number(d: Decimal) | Null

  datatype Entry = Entry(key: string, value: Value)

  /** Messages of the .NET runtime exceptions the metadata code lets escape. */
  const NullReference: string := "Object reference not set to an instance of an object."
  const NullKey: string := "Value cannot be null.\nParameter name: key"
  const NullNumber: string := "Value cannot be null.\nParameter name: s"

  function DuplicateKey(key: string): string {
    "An item with the same key has already been added. Key: " + key
  }

  const ScopeRequired: string := "The scope of the metadata object is required for this command."
  const TemplateRequired: string := "The key of the template is required for this command."

  /** `CheckForScope`: a null or empty scope stops the command. */
  function CheckForScope(scope: Option<string>): (c: Check)
    ensures c.Fail? <==> IsNullOrEmpty(scope)
    ensures c.Fail? ==> c.msg == ScopeRequired
  {
    if IsNullOrEmpty(scope) then Fail(ScopeRequired) else Pass
  }

  /** `CheckForTemplate`: a null or empty template key stops the command. */
  function CheckForTemplate(template: Option<string>): (c: Check)
    ensures c.Fail? <==> IsNullOrEmpty(template)
    ensures c.Fail? ==> c.msg == TemplateRequired
  {
    if IsNullOrEmpty(template) then Fail(TemplateRequired) else Pass
  }

  /** The keys of a dictionary, in insertion order. */
  function Keys(md: seq<Entry>): (ks: seq<string>)
    ensures |ks| == |md| && forall i :: 0 <= i < |md| ==> ks[i] == md[i].key
  {
    seq(|md|, i requires 0 <= i < |md| => md[i].key)
  }

  /** No entry of `md` has key `key`. */
  predicate Fresh(md: seq<Entry>, key: string) {
    forall i :: 0 <= i < |md| ==> md[i].key != key
  }

  lemma FreshIsNotKey(md: seq<Entry>, key: string)
    ensures Fresh(md, key) <==> key !in Keys(md)
  {
    if !Fresh(md, key) {
      var i :| 0 <= i < |md| && md[i].key == key;
      assert Keys(md)[i] == key;
    }
  }

  predicate Distinct(ks: seq<string>) {
    forall i, j :: 0 <= i < j < |ks| ==> ks[i] != ks[j]
  }

  /** `Dictionary.Add`: a new key is appended, a present key throws. */
  function Add(md: seq<Entry>, key: string, v: Value): (r: Outcome<seq<Entry>>)
    ensures r.Ok? <==> key !in Keys(md)
    ensures r.Ok? ==> r.value == md + [Entry(key, v)]
    ensures r.Err? ==> r.msg == DuplicateKey(key)
  {
    if key in Keys(md) then Err(DuplicateKey(key)) else Ok(md + [Entry(key, v)])
  }

  lemma AddKeepsDistinct(md: seq<Entry>, key: string, v: Value)
    requires Distinct(Keys(md)) && Add(md, key, v).Ok?
    ensures Distinct(Keys(Add(md, key, v).value))
  {
    var ks := Keys(Add(md, key, v).value);
    assert ks == Keys(md) + [key];
  }

  /** A full match of `[0-9]*\.?[0-9]*`: digits, then optionally a point
      and more digits. */
  predicate FloatBody(x: string) {
    var dot := IndexOf(x, '.');
    AllDigits(x[..dot]) && (dot < |x| ==> AllDigits(x[dot + 1..]))
  }

  /** `^[0-9]*\.?[0-9]*f{1}$` as .NET matches it: `$` also matches just
      before a final newline, so the literal may end in "f" or in "f\n". */
  predicate FloatLiteral(v: string) {
    || (|v| >= 1 && v[|v| - 1] == 'f' && FloatBody(v[..|v| - 1]))
    || (|v| >= 2 && v[|v| - 2] == 'f' && v[|v| - 1] == '\n' && FloatBody(v[..|v| - 2]))
  }

  /** The value stored for the text after `=`: a float literal is the
      decimal of the text without its last character, anything else the
      text itself. */
  function ConvertValue(v: string): (r: Outcome<Value>)
    ensures !FloatLiteral(v) ==> r == Ok(Text(v))
    ensures FloatLiteral(v) ==> (r.Ok? <==> Parse(v[..|v| - 1]).Ok?)
    ensures r.Ok? && FloatLiteral(v) ==> r.value == Number(Parse(v[..|v| - 1]).value)
  {
    if FloatLiteral(v) then
      match Parse(v[..|v| - 1])
      case Ok(d) => Ok(Number(d))
      case Err(m) => Err(m)
    else Ok(Text(v))
  }

  /** One `&`-separated piece: a piece that splits on `=` into exactly two
      parts adds an entry, any other piece is skipped. */
  function AddPiece(md: seq<Entry>, piece: string): Outcome<seq<Entry>> {
    var kv := Split(piece, "=");
    if |kv| != 2 then Ok(md)
    else match ConvertValue(kv[1]) {
      case Err(m) => Err(m)
      case Ok(v) => Add(md, kv[0], v)
    }
  }

  /** The dictionary after the pieces, in order; the first exception stops it. */
  function AddPieces(pieces: seq<string>): Outcome<seq<Entry>> {
    if |pieces| == 0 then Ok([])
    else match AddPieces(pieces[..|pieces| - 1]) {
      case Err(m) => Err(m)
      case Ok(md) => AddPiece(md, pieces[|pieces| - 1])
    }
  }

  /** `MetadataKeyValuesFromCommandOption` as a value. */
  function ParseKeyValues(option: string): Outcome<seq<Entry>> {
    AddPieces(Split(option, "&"))
  }

  /** One pass of the loop body: a `key=value` piece is added, the value
      parsed as a decimal when it is a float literal; any other piece is
      skipped. */
  method AddKeyValue(metadata: seq<Entry>, keyVal: string) returns (added: Outcome<seq<Entry>>)
    ensures added == AddPiece(metadata, keyVal)
  {
    var splitKeyVal := Split(keyVal, "=");
    if |splitKeyVal| != 2 {
      return Ok(metadata);
    }
    var v := splitKeyVal[1];
    if FloatLiteral(v) {
      var parsed := Parse(v[..|v| - 1]);
      if parsed.Err? {
        return Err(parsed.msg);
      }
      added := Add(metadata, splitKeyVal[0], Number(parsed.value));
    } else {
      added := Add(metadata, splitKeyVal[0], Text(v));
    }
  }

  /** `MetadataKeyValuesFromCommandOption`. */
  method MetadataKeyValuesFromCommandOption(option: string) returns (r: Outcome<seq<Entry>>)
    ensures r == ParseKeyValues(option)
  {
    var keyVals := Split(option, "&");
    var metadata: seq<Entry> := [];
    var i := 0;
    while i < |keyVals|
      invariant 0 <= i <= |keyVals|
      invariant AddPieces(keyVals[..i]) == Ok(metadata)
    {
      var added := AddKeyValue(metadata, keyVals[i]);
      assert keyVals[..i + 1][..i] == keyVals[..i];
      if added.Err? {
        StopsAtError(keyVals, i + 1);
        return added;
      }
      metadata := added.value;
      i := i + 1;
    }
    assert keyVals[..i] == keyVals;
    r := Ok(metadata);
  }

  /** Once a piece has failed, the later pieces change nothing. */
  lemma {:induction false} StopsAtError(pieces: seq<string>, j: nat)
    requires j <= |pieces| && AddPieces(pieces[..j]).Err?
    ensures AddPieces(pieces) == AddPieces(pieces[..j])
    decreases |pieces| - j
  {
    if j < |pieces| {
      var next := pieces[..j + 1];
      assert next[..j] == pieces[..j];
      StopsAtError(pieces, j + 1);
    } else {
      assert pieces[..j] == pieces;
    }
  }

  /** A well-formed piece: its key and the text of its value. */
  datatype Pair = Pair(key: string, raw: string)

  /** Reference definition: the well-formed pieces, in order. */
  function Pairs(pieces: seq<string>): seq<Pair> {
    if |pieces| == 0 then []
    else
      var kv := Split(pieces[|pieces| - 1], "=");
      Pairs(pieces[..|pieces| - 1]) + (if |kv| == 2 then [Pair(kv[0], kv[1])] else [])
  }

  /** No two well-formed pieces share a key. */
  predicate DistinctPairs(ps: seq<Pair>) {
    forall i, j :: 0 <= i < j < |ps| ==> ps[i].key != ps[j].key
  }

  /** Every well-formed piece's value converts. */
  predicate AllConvert(ps: seq<Pair>) {
    forall i :: 0 <= i < |ps| ==> ConvertValue(ps[i].raw).Ok?
  }

  /** The dictionary holds the pairs' keys, in order, with their converted values. */
  predicate Holds(md: seq<Entry>, ps: seq<Pair>) {
    |md| == |ps| && forall i :: 0 <= i < |md| ==> md[i].key == ps[i].key && ConvertValue(ps[i].raw) == Ok(md[i].value)
  }

  /** Soundness: a parsed dictionary holds exactly the well-formed pieces,
      in order, with converted values, and its keys are distinct. */
  lemma {:induction false} ParseSound(pieces: seq<string>)
    requires AddPieces(pieces).Ok?
    ensures Holds(AddPieces(pieces).value, Pairs(pieces))
    ensures Distinct(Keys(AddPieces(pieces).value))
    ensures DistinctPairs(Pairs(pieces)) && AllConvert(Pairs(pieces))
    decreases |pieces|
  {
    if |pieces| > 0 {
      var init := pieces[..|pieces| - 1];
      var last := pieces[|pieces| - 1];
      ParseSound(init);
      var md := AddPieces(init).value;
      var kv := Split(last, "=");
      if |kv| == 2 {
        var v := ConvertValue(kv[1]).value;
        AddKeepsDistinct(md, kv[0], v);
      }
    }
  }

  /** Completeness: when the keys are distinct and every value converts,
      parsing succeeds. */
  lemma {:induction false} ParseComplete(pieces: seq<string>)
    requires DistinctPairs(Pairs(pieces)) && AllConvert(Pairs(pieces))
    ensures AddPieces(pieces).Ok?
    decreases |pieces|
  {
    if |pieces| > 0 {
      var init := pieces[..|pieces| - 1];
      var kv := Split(pieces[|pieces| - 1], "=");
      var ps := Pairs(init);
      assert Pairs(pieces)[..|ps|] == ps;
      ParseComplete(init);
      ParseSound(init);
      if |kv| == 2 {
        var md := AddPieces(init).value;
        assert Pairs(pieces)[|ps|] == Pair(kv[0], kv[1]);
      }
    }
  }

  /** The option parses exactly when its well-formed keys are distinct and
      every one of its float literals holds a number. */
  lemma ParseSucceedsIff(option: string)
    ensures ParseKeyValues(option).Ok? <==>
      DistinctPairs(Pairs(Split(option, "&"))) && AllConvert(Pairs(Split(option, "&")))
    ensures ParseKeyValues(option).Ok? ==>
      Holds(ParseKeyValues(option).value, Pairs(Split(option, "&")))
  {
    var pieces := Split(option, "&");
    if AddPieces(pieces).Ok? {
      ParseSound(pieces);
    }
    if DistinctPairs(Pairs(pieces)) && AllConvert(Pairs(pieces)) {
      ParseComplete(pieces);
    }
  }

  /** A piece that does not split on `=` into exactly two parts is
      skipped: appending it to an option changes nothing. */
  lemma MalformedPieceSkipped(parts: seq<string>, junk: string)
    requires |parts| > 0
    requires forall i :: 0 <= i < |parts| ==> '&' !in parts[i]
    requires '&' !in junk && |Split(junk, "=")| != 2
    ensures ParseKeyValues(Join("&", parts + [junk])) == ParseKeyValues(Join("&", parts))
  {
    var pieces := parts + [junk];
    assert Split(Join("&", parts), "&") == parts by {
      SplitJoin('&', parts);
    }
    assert Split(Join("&", pieces), "&") == pieces by {
      SplitJoin('&', pieces);
    }
    assert AddPieces(pieces) == AddPieces(parts) by {
      assert pieces[..|parts|] == parts;
      SkippedPiece(pieces, |parts|);
    }
  }

  /** A last piece that does not split into two parts leaves the result as it was. */
  lemma SkippedPiece(pieces: seq<string>, n: nat)
    requires n + 1 == |pieces| && |Split(pieces[n], "=")| != 2
    ensures AddPieces(pieces) == AddPieces(pieces[..n])
  {
  }

  /** An option of one `key=value` piece holds the converted value under the key. */
  lemma SinglePair(key: string, raw: string)
    requires '&' !in key && '&' !in raw && '=' !in key && '=' !in raw
    ensures ParseKeyValues(key + "=" + raw) ==
      match ConvertValue(raw) {
        case Err(m) => Err(m)
        case Ok(v) => Ok([Entry(key, v)])
      }
  {
    var s := key + "=" + raw;
    assert '&' !in s;
    SplitFromPlain(s, '&', "");
    assert "" + s == s;
    assert Split(s, "&") == [s];
    assert s == key + ['='] + raw;
    SplitFromPiece(key, '=', raw, "");
    SplitFromPlain(raw, '=', "");
    assert "" + key == key && "" + raw == raw;
    assert Split(s, "=") == [key, raw];
    assert [s][..0] == [];
    assert AddPieces([s]) == AddPiece([], s);
    if ConvertValue(raw).Ok? {
      var e: seq<Entry> := [];
      assert Keys(e) == [];
      assert e + [Entry(key, ConvertValue(raw).value)] == [Entry(key, ConvertValue(raw).value)];
    }
  }

  /** "f" and ".f" match the float pattern but leave no number to parse. */
  lemma FloatWithoutDigits(key: string)
    requires '&' !in key && '=' !in key
    ensures ParseKeyValues(key + "=f") == Err(FormatError)
    ensures ParseKeyValues(key + "=.f") == Err(FormatError)
  {
    assert "f"[..0] == "" && ".f"[..1] == ".";
    assert IndexOf("", '.') == 0;
    assert IndexOf(".", '.') == 0 && "."[..0] == "" && "."[1..] == "";
    SinglePair(key, "f");
    SinglePair(key, ".f");
    assert key + "=" + "f" == key + "=f";
    assert key + "=" + ".f" == key + "=.f";
  }

  /** A float literal ending in "f\n" is accepted by the pattern, but the
      text that reaches `Decimal.Parse` still ends in 'f', so parsing fails. */
  lemma FloatBeforeNewline(digits: string)
    requires AllDigits(digits)
    ensures ConvertValue(digits + "f\n") == Err(FormatError)
  {
    var v := digits + "f\n";
    var body := v[..|v| - 1];
    assert v[..|v| - 2] == digits;
    IndexOfAt(digits, '.', |digits|);
    assert FloatLiteral(v);
    assert body == digits + "f";
    assert body[0] != '-' && body[0] != '+';
    assert forall i :: 0 <= i < |body| ==> body[i] != '.';
    IndexOfAt(body, '.', |body|);
    assert body[..|body|] == body;
    assert !IsDigit(body[|body| - 1]);
  }

  /** A formatted non-negative decimal followed by "f" is stored as that
      decimal, scale included. */
  lemma DecimalRoundTrip(d: Decimal)
    requires !d.negative
    ensures ConvertValue(Format(d) + "f") == Ok(Number(d))
  {
    var v := Format(d) + "f";
    assert v[..|v| - 1] == Format(d) == Unsigned(d);
    FormattedBody(d);
    ParseFormat(d);
  }

  /** The unsigned rendering of a decimal is digits, a point, digits. */
  lemma FormattedBody(d: Decimal)
    ensures FloatBody(Unsigned(d))
  {
    var whole, frac := FormatPieces(d);
    var u := Unsigned(d);
    assert forall i :: 0 <= i < |whole| ==> u[i] == whole[i];
    if d.scale > 0 {
      assert u[|whole|] == '.';
    } else {
      assert u == whole;
    }
    IndexOfAt(u, '.', |whole|);
    var dot := IndexOf(u, '.');
    assert u[..dot] == whole;
    if d.scale > 0 {
      assert u[dot + 1..] == frac;
    }
  }

  /** A value that does not end in "f" or "f\n" is stored unchanged as text. */
  lemma PlainText(v: string)
    requires |v| == 0 || v[|v| - 1] != 'f'
    requires |v| < 2 || v[|v| - 2] != 'f' || v[|v| - 1] != '\n'
    ensures ConvertValue(v) == Ok(Text(v))
  {
  }
}
