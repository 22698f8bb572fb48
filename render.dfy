/** The text the proto templates receive: service and RPC lines, message
    names and message field lines (`ServiceName`, `GetRPCs`, `RequestName`,
    `ResponseName`, `RequestDefinition`, `ResponseDefinition`,
    `MessageField`, `EnumField`). */
module Render {
  import opened Wrappers
  import opened StringOps
  import opened Design
  import opened Fields
  import opened MediaTypes
  import opened Actions
  import opened Services

  const ServiceSuffix := "Service"
  const EmptyMessage := "Empty"
  const RequestSuffix := "Type"
  const StreamPrefix := "stream "

  /** `ServiceName`: the goified resource name followed by "Service". */
  function ServiceName(nm: Naming, s: ServiceDefinition): (r: string)
    ensures |r| >= |ServiceSuffix| && r[|r| - |ServiceSuffix|..] == ServiceSuffix
    ensures r[..|r| - |ServiceSuffix|] == nm.goify(s.name, true)
  {
    nm.goify(s.name, true) + ServiceSuffix
  }

  /** `RequestName`: "Empty" exactly when the request has no field; any
      other request message is named after its resource and RPC. */
  function RequestName(nm: Naming, rpc: RPCDefinition): (r: string)
    ensures r == EmptyMessage <==> |rpc.query| == 0
    ensures |rpc.query| > 0 ==> r == nm.goify(rpc.action.parentName, true) + rpc.name + RequestSuffix
  {
    if |rpc.query| == 0 then EmptyMessage
    else
      var r := nm.goify(rpc.action.parentName, true) + rpc.name + RequestSuffix;
      assert r[|r| - 1] == 'e' && r[|r| - 2] == 'p' && r[|r| - 3] == 'y';
      r
  }

  /** `ResponseName`: "Empty" without a response, the response message
      marked "stream " for a collection, the response message otherwise. */
  function ResponseName(rpc: RPCDefinition): (r: string)
    ensures rpc.response.None? ==> r == EmptyMessage
    ensures rpc.response.Some? && rpc.response.value.stream ==>
              |r| == |StreamPrefix| + |rpc.response.value.identifierName| &&
              r[..|StreamPrefix|] == StreamPrefix && r[|StreamPrefix|..] == rpc.response.value.identifierName
    ensures rpc.response.Some? && !rpc.response.value.stream ==> r == rpc.response.value.identifierName
  {
    if rpc.response.None? then EmptyMessage
    else if rpc.response.value.stream then StreamPrefix + rpc.response.value.identifierName
    else rpc.response.value.identifierName
  }

  /** One line of a service block: `rpc Name(Request) returns (Response);`. */
  function RpcLine(nm: Naming, rpc: RPCDefinition): string
  {
    "rpc " + rpc.name + "(" + RequestName(nm, rpc) + ") returns (" + ResponseName(rpc) + ");"
  }

  /** The lines of a service block, one per RPC in order. */
  function RpcLines(nm: Naming, rpcs: seq<RPCDefinition>): seq<string>
  {
    seq(|rpcs|, k requires 0 <= k < |rpcs| => RpcLine(nm, rpcs[k]))
  }

  /** `GetRPCs`: one line per RPC, in the service's RPC order. */
  method GetRPCs(nm: Naming, s: ServiceDefinition) returns (lines: seq<string>)
    ensures |lines| == |s.rpcs|
    ensures forall k :: 0 <= k < |s.rpcs| ==> lines[k] == RpcLine(nm, s.rpcs[k])
    ensures lines == RpcLines(nm, s.rpcs)
  {
    lines := [];
    var i := 0;
    while i < |s.rpcs|
      invariant 0 <= i <= |s.rpcs| && |lines| == i
      invariant forall k :: 0 <= k < i ==> lines[k] == RpcLine(nm, s.rpcs[k])
    {
      lines := lines + [RpcLine(nm, s.rpcs[i])];
      i := i + 1;
    }
  }

  /** A parsed action asks for the "Empty" request exactly when its path
      parameters, query parameters and payload contribute no field. */
  lemma EmptyRequestOfParsedAction(nm: Naming, a: Action, responses: map<string, Response>,
                                   rpc: RPCDefinition)
    requires ParsedFrom(nm, a, responses, rpc)
    ensures RequestName(nm, rpc) == EmptyMessage <==>
              && (a.pathParams.None? || |a.pathParams.value| == 0)
              && (a.queryParams.None? || |a.queryParams.value| == 0)
              && (a.payload.None? || |a.payload.value| == 0)
  {
    EmptyQuery(nm, a, responses, rpc);
  }

  /** The header `EnumField` writes as the source stands: the format has a
      verb and no argument, so Go substitutes its missing-argument marker. */
  const MissingEnumHeader := "enum %!s(MISSING) {"

  /** The header `EnumField` evidently means to write: the enum named after
      the field. */
  function EnumHeader(p: Param): (r: string)
    ensures |r| == 7 + |p.camelCaseName|
    ensures r[..5] == "enum " && r[5..5 + |p.camelCaseName|] == p.camelCaseName
    ensures r[5 + |p.camelCaseName|..] == " {"
  {
    "enum " + p.camelCaseName + " {"
  }

  /** One enum entry: `value = number;`. */
  function EnumEntry(value: string, number: nat): string
  {
    value + " = " + DecimalString(number) + ";"
  }

  /** The entries of an enum block, numbered from 0 in declaration order. */
  function EnumEntries(values: seq<string>): string
  {
    if values == [] then ""
    else EnumEntries(values[..|values| - 1]) + EnumEntry(values[|values| - 1], |values| - 1)
  }

  /** An enum block with the given header. */
  function EnumBlock(header: string, values: seq<string>): string
  {
    header + EnumEntries(values) + "}"
  }

  /** The loop of `EnumField`, after its header. */
  method WriteEnum(header: string, values: seq<string>) returns (buf: string)
    ensures buf == EnumBlock(header, values)
  {
    buf := header;
    var i := 0;
    while i < |values|
      invariant 0 <= i <= |values|
      invariant buf == header + EnumEntries(values[..i])
    {
      assert values[..i + 1][..i] == values[..i];
      buf := buf + EnumEntry(values[i], i);
      i := i + 1;
    }
    assert values[..i] == values;
    buf := buf + "}";
  }

  /** `EnumField` as the source stands: every enum block opens with the
      missing-argument marker instead of a name. */
  method EnumFieldAsWritten(p: Param) returns (buf: string)
    ensures buf == EnumBlock(MissingEnumHeader, p.enum)
    ensures buf[..|MissingEnumHeader|] == MissingEnumHeader
  {
    buf := WriteEnum(MissingEnumHeader, p.enum);
  }

  /** As the source stands, two enum fields with the same values produce
      the same block whatever their names: the name is lost. */
  lemma AsWrittenEnumLosesName(p: Param, q: Param)
    requires p.enum == q.enum && p.camelCaseName != q.camelCaseName
    ensures EnumBlock(MissingEnumHeader, p.enum) == EnumBlock(MissingEnumHeader, q.enum)
  {
  }

  /** The marker Go writes in place of the missing name. */
  const MissingMarker := "%!s(MISSING)"

  /** As the source stands, the block of every enum field whose name is not
      the marker itself differs from the block it evidently means to
      write. */
  lemma AsWrittenDiffersFromIntended(p: Param)
    requires p.camelCaseName != MissingMarker
    ensures EnumBlock(MissingEnumHeader, p.enum) != EnumBlock(EnumHeader(p), p.enum)
  {
    var name, rest := p.camelCaseName, EnumEntries(p.enum) + "}";
    var x, y := EnumBlock(MissingEnumHeader, p.enum), EnumBlock(EnumHeader(p), p.enum);
    assert MissingEnumHeader == "enum " + MissingMarker + " {";
    assert x == "enum " + MissingMarker + " {" + rest;
    assert y == "enum " + name + " {" + rest;
    if |name| != |MissingMarker| {
      assert |x| != |y|;
    } else {
      var k :| 0 <= k < |name| && name[k] != MissingMarker[k];
      BlockAt(MissingMarker, rest, k);
      BlockAt(name, rest, k);
    }
  }

  /** With the intended header, the block of an enum determines its name
      among fields with the same values. */
  lemma IntendedEnumKeepsName(p: Param, q: Param)
    requires p.enum == q.enum
    requires EnumBlock(EnumHeader(p), p.enum) == EnumBlock(EnumHeader(q), q.enum)
    ensures p.camelCaseName == q.camelCaseName
  {
    var hp, hq, tail := EnumHeader(p), EnumHeader(q), EnumEntries(p.enum) + "}";
    assert EnumBlock(hp, p.enum) == hp + tail && EnumBlock(hq, q.enum) == hq + tail;
    assert |hp| == |hq|;
    assert hp == (hp + tail)[..|hp|] == (hq + tail)[..|hq|] == hq;
    assert p.camelCaseName == hp[5..5 + |p.camelCaseName|] == hq[5..5 + |q.camelCaseName|] == q.camelCaseName;
  }

  /** `EnumField` as evidently intended: the block opens with the field's
      name. */
  method EnumField(p: Param) returns (buf: string)
    ensures buf == EnumBlock(EnumHeader(p), p.enum)
  {
    buf := WriteEnum(EnumHeader(p), p.enum);
  }

  lemma BlockAt(name: string, rest: string, k: nat)
    requires k <= |name|
    ensures |"enum " + name + " {" + rest| > 5 + k
    ensures ("enum " + name + " {" + rest)[5 + k] == if k < |name| then name[k] else ' '
  {
    var b := "enum " + name + " {" + rest;
    assert b == "enum " + (name + (" {" + rest));
  }

  /** With the intended header, two enum fields whose names differ and
      contain no space always open distinct blocks, whatever their values. */
  lemma EnumBlocksDistinct(p: Param, q: Param)
    requires p.camelCaseName != q.camelCaseName
    requires ' ' !in p.camelCaseName && ' ' !in q.camelCaseName
    ensures EnumBlock(EnumHeader(p), p.enum) != EnumBlock(EnumHeader(q), q.enum)
  {
    var a, b := p.camelCaseName, q.camelCaseName;
    var x, y := EnumBlock(EnumHeader(p), p.enum), EnumBlock(EnumHeader(q), q.enum);
    var restP, restQ := EnumEntries(p.enum) + "}", EnumEntries(q.enum) + "}";
    assert x == "enum " + a + " {" + restP;
    assert y == "enum " + b + " {" + restQ;
    if |a| < |b| {
      BlockAt(a, restP, |a|);
      BlockAt(b, restQ, |a|);
      assert b[|a|] in b;
    } else if |b| < |a| {
      BlockAt(a, restP, |b|);
      BlockAt(b, restQ, |b|);
      assert a[|b|] in a;
    } else {
      var k :| 0 <= k < |a| && a[k] != b[k];
      BlockAt(a, restP, k);
      BlockAt(b, restQ, k);
    }
  }

  /** One field line of a message: the enum block if the field has values,
      then `kind name = number;`, then the description as a comment. */
  function FieldLine(p: Param, number: nat): (line: string)
  {
    (if |p.enum| > 0 then EnumBlock(EnumHeader(p), p.enum) else "")
    + p.kind + " " + p.name + " = " + DecimalString(number) + ";"
    + (if p.description != "" then " // " + p.description else "")
  }

  /** `MessageField`. */
  method MessageField(p: Param, number: nat) returns (line: string)
    ensures line == FieldLine(p, number)
  {
    line := "";
    if |p.enum| > 0 {
      line := EnumField(p);
    }
    line := line + p.kind + " " + p.name + " = " + DecimalString(number) + ";";
    if p.description != "" {
      line := line + " // " + p.description;
    }
  }

  /** The field lines of a message: one per field, numbered from 1. */
  function Definition(ps: seq<Param>): seq<string>
  {
    seq(|ps|, k requires 0 <= k < |ps| => FieldLine(ps[k], k + 1))
  }

  /** The loop shared by `RequestDefinition` and `ResponseDefinition`: line
      k is the field line of field k, numbered k + 1. */
  method WriteDefinition(ps: seq<Param>) returns (lines: seq<string>)
    ensures |lines| == |ps|
    ensures forall k :: 0 <= k < |ps| ==> lines[k] == FieldLine(ps[k], k + 1)
    ensures lines == Definition(ps)
  {
    lines := [];
    var i := 0;
    while i < |ps|
      invariant 0 <= i <= |ps| && |lines| == i
      invariant forall k :: 0 <= k < i ==> lines[k] == FieldLine(ps[k], k + 1)
    {
      var line := MessageField(ps[i], i + 1);
      lines := lines + [line];
      i := i + 1;
    }
  }

  /** `RequestDefinition`. */
  method RequestDefinition(rpc: RPCDefinition) returns (lines: seq<string>)
    ensures lines == Definition(rpc.query)
  {
    lines := WriteDefinition(rpc.query);
  }

  /** `ResponseDefinition`; the source dereferences the response, so the
      RPC must have one. */
  method ResponseDefinition(rpc: RPCDefinition) returns (lines: seq<string>)
    requires rpc.response.Some?
    ensures lines == Definition(rpc.response.value.params)
  {
    lines := WriteDefinition(rpc.response.value.params);
  }

  /** The number written into a plain field line (no enum, no description)
      is the field's number: it can be read back from the line's end. */
  lemma FieldNumberReadBack(p: Param, number: nat)
    requires |p.enum| == 0 && p.description == ""
    ensures var line := FieldLine(p, number);
            var digits := DecimalString(number);
            |line| > |digits| && line[|line| - 1] == ';' &&
            line[|line| - 1 - |digits|..|line| - 1] == digits &&
            DecimalValue(line[|line| - 1 - |digits|..|line| - 1]) == number
  {
    var digits := DecimalString(number);
    var line := FieldLine(p, number);
    var head := p.kind + " " + p.name + " = ";
    assert line == head + digits + ";";
    assert line[|line| - 1 - |digits|..|line| - 1] == digits;
    DecimalRoundTrip(number);
  }

  /** Fields at distinct positions of one message are written with
      distinct numbers. */
  lemma FieldNumbersDistinct(k: nat, l: nat)
    requires k != l
    ensures DecimalString(k + 1) != DecimalString(l + 1)
  {
    DecimalRoundTrip(k + 1);
    DecimalRoundTrip(l + 1);
  }
}
