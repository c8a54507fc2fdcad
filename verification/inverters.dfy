/**
  The inverter device of src/device.py: its identity fields with their
  construction defaults, and get_data, which turns one text frame into a
  measurement record.
 */
module Inverters {
  import opened Wrappers
  import opened Text

  /** Python's float() on one token: Some(value) when the token converts, None
      when float() raises ValueError. Passed in; nothing is assumed about it. */
  type Converter = string -> Option<real>

  /** Identity of a device, fixed at construction. */
  datatype Config = Config(name: string, model: string, location: string, port: string)

  /** A value in a record's `fields`: a converted number or the verbatim status token. */
  datatype Value = Num(x: real) | Bits(s: string)

  datatype Field = Field(name: string, value: Value)

  /** The dict get_data returns; `fields` keeps the order of the named tuple,
      `time` is in minutes. */
  datatype Record = Record(measurement: string, tags: map<string, string>, fields: seq<Field>, time: int)

  /** What the Python code raises. */
  datatype Error =
    | WrongTokenCount(got: nat)   // TypeError: the frame does not have ten tokens
    | NotNumeric(token: string)   // ValueError from float() on one of the first nine tokens
    | NoRawData                   // AttributeError: _raw_data was never assigned
    | NotADevice                  // TypeError from Monitor.init_device

  const DefaultName := "Invertor"
  const DefaultModel := "model"
  const DefaultLocation := "location"
  const DefaultPort := "COM_port"

  /** A frame has nine numeric tokens followed by the command bits. */
  const TokenCount := 10

  /** The field names of the InvertorData named tuple, in order. */
  const FieldNames: seq<string> :=
    ["VVV", "QQQ", "SS_S", "BBB", "TT_T", "MMM", "RR_R", "DDD", "PPP", "command_bits"]

  function Kwarg(kwargs: map<string, string>, key: string, default: string): string {
    if key in kwargs then kwargs[key] else default
  }

  /** Inverter(**kwargs): defaults first, then every matching keyword argument wins. */
  function ConfigFromKwargs(kwargs: map<string, string>): (c: Config)
    ensures c.name == (if "name" in kwargs then kwargs["name"] else DefaultName)
    ensures c.model == (if "model" in kwargs then kwargs["model"] else DefaultModel)
    ensures c.location == (if "location" in kwargs then kwargs["location"] else DefaultLocation)
    ensures c.port == (if "port" in kwargs then kwargs["port"] else DefaultPort)
  {
    Config(Kwarg(kwargs, "name", DefaultName), Kwarg(kwargs, "model", DefaultModel),
           Kwarg(kwargs, "location", DefaultLocation), Kwarg(kwargs, "port", DefaultPort))
  }

  /** Keyword arguments other than the four identity keys leave the identity alone. */
  lemma OtherKwargsIgnored(kwargs: map<string, string>, key: string, v: string)
    requires key !in {"name", "model", "location", "port"}
    ensures ConfigFromKwargs(kwargs[key := v]) == ConfigFromKwargs(kwargs)
    ensures ConfigFromKwargs(map[]) == Config(DefaultName, DefaultModel, DefaultLocation, DefaultPort)
  {
  }

  predicate IsOpen(c: char) { c == '(' }
  predicate IsClose(c: char) { c == ')' }

  /** self._raw_data.strip().lstrip("(").rstrip(")"). */
  function Normalize(raw: string): (s: string)
    ensures s == [] || (s[0] != '(' && s[|s| - 1] != ')')
    ensures |s| <= |raw|
  {
    var inner := StripLeft(Strip(raw), IsOpen);
    var s := StripRight(inner, IsClose);
    assert s != [] ==> s[0] == inner[0];
    s
  }

  /** Past the outer whitespace, normalising removes only a run of '(' in
      front and a run of ')' behind: the frame keeps everything in between. */
  lemma NormalizeRemovesParens(raw: string) returns (a: string, b: string)
    ensures Strip(raw) == a + Normalize(raw) + b
    ensures forall j :: 0 <= j < |a| ==> a[j] == '('
    ensures forall j :: 0 <= j < |b| ==> b[j] == ')'
  {
    a, b := ParenRuns(Strip(raw));
  }

  /** The runs of '(' and ')' that lstrip("(") and rstrip(")") take off `st`. */
  lemma ParenRuns(st: string) returns (a: string, b: string)
    ensures st == a + StripRight(StripLeft(st, IsOpen), IsClose) + b
    ensures forall j :: 0 <= j < |a| ==> a[j] == '('
    ensures forall j :: 0 <= j < |b| ==> b[j] == ')'
  {
    var inner := StripLeft(st, IsOpen);
    a := OpenRun(st);
    b := CloseRun(inner);
    assert st == a + (StripRight(inner, IsClose) + b);
  }

  /** lstrip("(") takes a run of '(' off the front. */
  lemma OpenRun(st: string) returns (a: string)
    ensures st == a + StripLeft(st, IsOpen)
    ensures forall j :: 0 <= j < |a| ==> a[j] == '('
  {
    StripLeftSuffix(st, IsOpen);
    var k := |st| - |StripLeft(st, IsOpen)|;
    a := st[..k];
    forall j | 0 <= j < |a| ensures a[j] == '(' {
      assert IsOpen(st[j]);
    }
    assert st == st[..k] + st[k..];
  }

  /** rstrip(")") takes a run of ')' off the back. */
  lemma CloseRun(inner: string) returns (b: string)
    ensures inner == StripRight(inner, IsClose) + b
    ensures forall j :: 0 <= j < |b| ==> b[j] == ')'
  {
    var s := StripRight(inner, IsClose);
    b := inner[|s|..];
    forall j | 0 <= j < |b| ensures b[j] == ')' {
      assert IsClose(inner[|s| + j]);
    }
    assert inner == inner[..|s|] + inner[|s|..];
  }

  /** The tokens get_data counts: the normalised frame split on whitespace. */
  function Tokens(raw: string): seq<string> {
    Split(Normalize(raw))
  }

  /** map(float, tokens), evaluated left to right: stops at the first token
      float() rejects. */
  function ConvertAll(tokens: seq<string>, toFloat: Converter): (r: Result<seq<real>, Error>)
    ensures r.Ok? <==> forall i :: 0 <= i < |tokens| ==> toFloat(tokens[i]).Some?
    ensures r.Ok? ==>
      |r.value| == |tokens| && forall i :: 0 <= i < |tokens| ==> r.value[i] == toFloat(tokens[i]).value
    ensures r.Err? ==> exists i :: FirstRejected(tokens, toFloat, i) && r.error == NotNumeric(tokens[i])
  {
    if tokens == [] then Ok([])
    else match toFloat(tokens[0])
      case None => assert FirstRejected(tokens, toFloat, 0); Err(NotNumeric(tokens[0]))
      case Some(x) =>
        match ConvertAll(tokens[1..], toFloat)
        case Err(e) =>
          var i :| FirstRejected(tokens[1..], toFloat, i) && e == NotNumeric(tokens[1..][i]);
          assert FirstRejected(tokens, toFloat, i + 1);
          Err(e)
        case Ok(xs) => Ok([x] + xs)
  }

  /** Token i is the first one that float() rejects. */
  predicate FirstRejected(tokens: seq<string>, toFloat: Converter, i: int) {
    && 0 <= i < |tokens|
    && toFloat(tokens[i]).None?
    && forall j :: 0 <= j < i ==> toFloat(tokens[j]).Some?
  }

  /** The fields of a record decoded from `tokens`: the ten names in order, the
      first nine values converted, the tenth kept as text. */
  predicate FieldsMatch(fields: seq<Field>, tokens: seq<string>, toFloat: Converter) {
    && |fields| == TokenCount && |tokens| == TokenCount
    && (forall i :: 0 <= i < TokenCount ==> fields[i].name == FieldNames[i])
    && (forall i :: 0 <= i < TokenCount - 1 ==>
          toFloat(tokens[i]).Some? && fields[i].value == Num(toFloat(tokens[i]).value))
    && fields[TokenCount - 1].value == Bits(tokens[TokenCount - 1])
  }

  /** The tags of a record: the device's model and location. */
  function TagsOf(cfg: Config): (tags: map<string, string>)
    ensures tags.Keys == {"model", "location"} && tags["model"] == cfg.model && tags["location"] == cfg.location
  {
    map["model" := cfg.model, "location" := cfg.location]
  }

  /** The body of Inverter.get_data once the frame has been split into tokens
      and the time is known; DecodeTokensSpec states what it gives. */
  function DecodeTokens(cfg: Config, tokens: seq<string>, time: int, toFloat: Converter): Result<Record, Error> {
    if |tokens| != TokenCount then Err(WrongTokenCount(|tokens|))
    else
      var numeric := tokens[..TokenCount - 1];
      match ConvertAll(numeric, toFloat)
      case Err(e) => Err(e)
      case Ok(xs) =>
        var fields := seq(TokenCount - 1, i requires 0 <= i < TokenCount - 1 => Field(FieldNames[i], Num(xs[i])))
                      + [Field(FieldNames[TokenCount - 1], Bits(tokens[TokenCount - 1]))];
        Ok(Record(cfg.name, TagsOf(cfg), fields, time))
  }

  /** A frame decodes exactly when it has ten tokens and float() accepts the
      first nine; otherwise the error names the token count or the first
      rejected token. A record carries the device name, its tags, the given
      time and the ten named fields. */
  lemma DecodeTokensSpec(cfg: Config, tokens: seq<string>, time: int, toFloat: Converter)
    ensures var r := DecodeTokens(cfg, tokens, time, toFloat);
      && (r.Ok? <==> (|tokens| == TokenCount && forall i :: 0 <= i < TokenCount - 1 ==> toFloat(tokens[i]).Some?))
      && (|tokens| != TokenCount ==> r == Err(WrongTokenCount(|tokens|)))
      && (r.Err? && |tokens| == TokenCount ==>
            exists i :: FirstRejected(tokens[..TokenCount - 1], toFloat, i) && r.error == NotNumeric(tokens[i]))
      && (r.Ok? ==>
            && r.value.measurement == cfg.name
            && r.value.tags == TagsOf(cfg)
            && r.value.time == time
            && FieldsMatch(r.value.fields, tokens, toFloat))
  {
  }

  /** Inverter.get_data on a frame `raw` at time `time`. */
  function Decode(cfg: Config, raw: string, time: int, toFloat: Converter): Result<Record, Error> {
    DecodeTokens(cfg, Tokens(raw), time, toFloat)
  }

  /** Inverter.get_data(**kwargs): the time is the current_time keyword argument
      when given, the wall clock `now` otherwise; reading _raw_data fails when it
      was never set. */
  function InverterGetData(cfg: Config, rawData: Option<string>, currentTime: Option<int>, now: int,
                           toFloat: Converter): (r: Result<Record, Error>)
    ensures rawData.None? ==> r == Err(NoRawData)
    ensures r.Ok? ==>
      && r.value.measurement == cfg.name && r.value.tags == TagsOf(cfg)
      && r.value.time == (if currentTime.Some? then currentTime.value else now)
  {
    var time := if currentTime.Some? then currentTime.value else now;
    if rawData.None? then Err(NoRawData)
    else
      DecodeTokensSpec(cfg, Tokens(rawData.value), time, toFloat);
      Decode(cfg, rawData.value, time, toFloat)
  }

  /** A frame as the device sends it: the tokens joined by single spaces in parentheses. */
  function Render(tokens: seq<string>): string {
    "(" + Join(tokens) + ")"
  }

  /** One pair of parentheses around a frame that neither starts with "(" nor
      ends with ")" is exactly what normalisation removes. */
  lemma UnwrapParens(j: string)
    requires j != [] && j[0] != '(' && j[|j| - 1] != ')'
    ensures Normalize("(" + (j + ")")) == j
  {
    var raw := "(" + (j + ")");
    StripClean(raw);
    assert IsOpen("("[0]);
    StripLeftSkip("(", j + ")", IsOpen);
    assert StripLeft(j + ")", IsOpen) == j + ")";
    StripRightSkip(j, ")", IsClose);
    assert StripRight(j, IsClose) == j;
  }

  /** Normalising a rendered frame removes exactly the added parentheses. */
  lemma NormalizeRendered(tokens: seq<string>)
    requires |tokens| > 0 && forall k :: 0 <= k < |tokens| ==> IsWord(tokens[k])
    requires tokens[0] != [] && tokens[|tokens| - 1] != []
    requires tokens[0][0] != '(' && tokens[|tokens| - 1][|tokens[|tokens| - 1]| - 1] != ')'
    ensures Normalize(Render(tokens)) == Join(tokens)
  {
    JoinEnds(tokens);
    UnwrapParens(Join(tokens));
    assert Render(tokens) == "(" + (Join(tokens) + ")");
  }

  /** Parsing a rendered frame gives its tokens back. So a frame of ten
      tokens decodes to exactly those tokens under the ten field names, and a
      frame of any other number of tokens is rejected with that count. */
  lemma DecodeRendered(cfg: Config, tokens: seq<string>, time: int, toFloat: Converter)
    requires |tokens| > 0 && forall k :: 0 <= k < |tokens| ==> IsWord(tokens[k])
    requires tokens[0] != [] && tokens[|tokens| - 1] != []
    requires tokens[0][0] != '(' && tokens[|tokens| - 1][|tokens[|tokens| - 1]| - 1] != ')'
    ensures Tokens(Render(tokens)) == tokens
    ensures var r := Decode(cfg, Render(tokens), time, toFloat);
      && (|tokens| != TokenCount ==> r == Err(WrongTokenCount(|tokens|)))
      && (r.Ok? <==>
            |tokens| == TokenCount && forall i :: 0 <= i < TokenCount - 1 ==> toFloat(tokens[i]).Some?)
      && (r.Ok? ==> FieldsMatch(r.value.fields, tokens, toFloat) && r.value.time == time)
  {
    NormalizeRendered(tokens);
    SplitJoin(tokens);
    DecodeTokensSpec(cfg, tokens, time, toFloat);
  }
}
