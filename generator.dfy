/** The generator's decision logic: `Generator.Generate` with its
    defaulting and errors, the header, services and messages it emits, and
    `Cleanup`. The template engine is a `Writer` that records each
    template execution as a (template name, data) block. */
module ProtoGenerator {
  import opened Wrappers
  import opened Design
  import opened Fields
  import opened MediaTypes
  import opened Actions
  import opened Services
  import opened Render

  /** The data handed to a template. */
  datatype TemplateData =
    | HeaderData(api: API, host: string, scheme: string)
    | ServiceData(name: string, rpcs: seq<string>)
    | MessageData(name: string, definition: seq<string>)

  /** One template execution. */
  datatype Block = Block(template: string, data: TemplateData)

  const HeaderTemplate := "header"
  const ServiceTemplate := "service"
  const MessageTemplate := "message"
  const OutFile := "api.proto"
  const DefaultSchemeName := "http"
  const MissingAPIError := "missing API definition, make sure design is properly initialized"
  const MissingHostError := "missing host value, set it with --host"

  /** The buffered output: the template executions in order. */
  class Writer {
    var blocks: seq<Block>

    constructor ()
      ensures blocks == []
    {
      blocks := [];
    }

    /** `tmpl.ExecuteTemplate(buf, name, data)`. */
    method ExecuteTemplate(name: string, data: TemplateData)
      modifies this
      ensures blocks == old(blocks) + [Block(name, data)]
    {
      blocks := blocks + [Block(name, data)];
    }
  }

  /** The scheme `Generate` settles on: the configured one, else the API's
      first, else "http". */
  function DefaultScheme(scheme: string, schemes: seq<string>): (r: string)
    ensures r != ""
    ensures scheme != "" ==> r == scheme
    ensures scheme == "" && |schemes| > 0 && schemes[0] != "" ==> r == schemes[0]
    ensures scheme == "" && (|schemes| == 0 || schemes[0] == "") ==> r == DefaultSchemeName
  {
    var s := if scheme == "" && |schemes| > 0 then schemes[0] else scheme;
    if s == "" then DefaultSchemeName else s
  }

  /** The host `Generate` settles on: the configured one, else the API's
      (possibly still empty). */
  function DefaultHost(host: string, apiHost: string): (r: string)
    ensures host != "" ==> r == host
    ensures host == "" ==> r == apiHost
    ensures r == "" <==> host == "" && apiHost == ""
  {
    if host == "" then apiHost else host
  }

  function HeaderBlock(api: API, host: string, scheme: string): Block
  {
    Block(HeaderTemplate, HeaderData(api, host, scheme))
  }

  /** The block `generateServices` emits for one service. */
  function ServiceBlock(nm: Naming, s: ServiceDefinition): Block
  {
    Block(ServiceTemplate, ServiceData(ServiceName(nm, s), RpcLines(nm, s.rpcs)))
  }

  /** `generateServices`' output: one service block per service, in order. */
  function ServiceBlocks(nm: Naming, svcs: seq<ServiceDefinition>): seq<Block>
  {
    seq(|svcs|, k requires 0 <= k < |svcs| => ServiceBlock(nm, svcs[k]))
  }

  function RequestBlock(nm: Naming, rpc: RPCDefinition): Block
  {
    Block(MessageTemplate, MessageData(RequestName(nm, rpc), Definition(rpc.query)))
  }

  function ResponseBlock(rpc: RPCDefinition): Block
    requires rpc.response.Some?
  {
    Block(MessageTemplate, MessageData(rpc.response.value.identifierName, Definition(rpc.response.value.params)))
  }

  /** The response message is written beside the request: the RPC has a
      response and it is not a stream (defined elsewhere). */
  predicate OwnsResponse(rpc: RPCDefinition)
  {
    rpc.response.Some? && !rpc.response.value.stream
  }

  /** The whole output file: the header, then the services, then the
      messages. */
  function FileBlocks(nm: Naming, api: API, host: string, scheme: string,
                      svcs: seq<ServiceDefinition>): seq<Block>
  {
    [HeaderBlock(api, host, scheme)] + ServiceBlocks(nm, svcs) + MessageBlocks(nm, svcs)
  }

  lemma AppendAssociative<T>(a: seq<T>, b: seq<T>, c: seq<T>, d: seq<T>)
    ensures a + b + c + d == a + (b + c + d)
  {
  }

  lemma AppendAssociative3<T>(a: seq<T>, b: seq<T>, c: seq<T>)
    ensures a + b + c == a + (b + c)
  {
  }

  /** The messages `generateMessages` emits for one RPC: nothing for an
      empty request (not even the response); otherwise the request, then
      the response when the RPC owns it. */
  function RpcMessages(nm: Naming, rpc: RPCDefinition): seq<Block>
  {
    if |rpc.query| == 0 then []
    else if !OwnsResponse(rpc) then [RequestBlock(nm, rpc)]
    else [RequestBlock(nm, rpc), ResponseBlock(rpc)]
  }

  /** The messages of one RPC are message blocks; a request message is
      never named "Empty", and a block belongs to an RPC exactly when it is
      its request (for a non-empty request) or its owned response. */
  lemma RpcMessagesShape(nm: Naming, rpc: RPCDefinition, b: Block)
    ensures |rpc.query| > 0 ==> RequestBlock(nm, rpc).data.name != EmptyMessage
    ensures b in RpcMessages(nm, rpc) <==>
              |rpc.query| > 0 &&
              (b == RequestBlock(nm, rpc) || (OwnsResponse(rpc) && b == ResponseBlock(rpc)))
    ensures b in RpcMessages(nm, rpc) ==> b.template == MessageTemplate
  {
  }

  /** The messages of a list of RPCs, in order. */
  function RpcsMessages(nm: Naming, rpcs: seq<RPCDefinition>): seq<Block>
  {
    if rpcs == [] then [] else RpcsMessages(nm, rpcs[..|rpcs| - 1]) + RpcMessages(nm, rpcs[|rpcs| - 1])
  }

  /** `generateMessages`' output: the messages of every RPC of every
      service, in order. */
  function MessageBlocks(nm: Naming, svcs: seq<ServiceDefinition>): seq<Block>
  {
    if svcs == [] then [] else MessageBlocks(nm, svcs[..|svcs| - 1]) + RpcsMessages(nm, svcs[|svcs| - 1].rpcs)
  }

  /** A block is among the messages of a list of RPCs exactly when one of
      them emits it. */
  lemma {:induction false} RpcsMessagesMembers(nm: Naming, rpcs: seq<RPCDefinition>, b: Block)
    ensures b in RpcsMessages(nm, rpcs) <==> exists j :: 0 <= j < |rpcs| && b in RpcMessages(nm, rpcs[j])
  {
    if rpcs != [] {
      var init, last := rpcs[..|rpcs| - 1], rpcs[|rpcs| - 1];
      assert RpcsMessages(nm, rpcs) == RpcsMessages(nm, init) + RpcMessages(nm, last);
      RpcsMessagesMembers(nm, init, b);
      if b in RpcsMessages(nm, rpcs) {
        if b in RpcsMessages(nm, init) {
          var j :| 0 <= j < |init| && b in RpcMessages(nm, init[j]);
          assert init[j] == rpcs[j];
        } else {
          assert b in RpcMessages(nm, rpcs[|rpcs| - 1]);
        }
      }
      if exists j :: 0 <= j < |rpcs| && b in RpcMessages(nm, rpcs[j]) {
        var j :| 0 <= j < |rpcs| && b in RpcMessages(nm, rpcs[j]);
        if j < |init| {
          assert init[j] == rpcs[j];
          assert b in RpcsMessages(nm, init);
        }
      }
    }
  }

  /** A block is among the messages of the services exactly when the RPCs
      of one of them emit it. */
  lemma {:induction false} MessageBlocksMembers(nm: Naming, svcs: seq<ServiceDefinition>, b: Block)
    ensures b in MessageBlocks(nm, svcs) <==> exists i :: 0 <= i < |svcs| && b in RpcsMessages(nm, svcs[i].rpcs)
  {
    if svcs != [] {
      var init, last := svcs[..|svcs| - 1], svcs[|svcs| - 1];
      assert MessageBlocks(nm, svcs) == MessageBlocks(nm, init) + RpcsMessages(nm, last.rpcs);
      MessageBlocksMembers(nm, init, b);
      if b in MessageBlocks(nm, svcs) {
        if b in MessageBlocks(nm, init) {
          var i :| 0 <= i < |init| && b in RpcsMessages(nm, init[i].rpcs);
          assert init[i] == svcs[i];
        } else {
          assert b in RpcsMessages(nm, svcs[|svcs| - 1].rpcs);
        }
      }
      if exists i :: 0 <= i < |svcs| && b in RpcsMessages(nm, svcs[i].rpcs) {
        var i :| 0 <= i < |svcs| && b in RpcsMessages(nm, svcs[i].rpcs);
        if i < |init| {
          assert init[i] == svcs[i];
          assert b in MessageBlocks(nm, init);
        }
      }
    }
  }

  /** Every RPC with a non-empty request has its request message emitted,
      and its response message too when it owns it; an RPC with an empty
      request contributes no message. */
  lemma MessagesOfRpc(nm: Naming, svcs: seq<ServiceDefinition>, i: nat, j: nat)
    requires i < |svcs| && j < |svcs[i].rpcs|
    ensures var rpc := svcs[i].rpcs[j];
            && (|rpc.query| > 0 ==> RequestBlock(nm, rpc) in MessageBlocks(nm, svcs))
            && (|rpc.query| > 0 && OwnsResponse(rpc) ==> ResponseBlock(rpc) in MessageBlocks(nm, svcs))
            && (|rpc.query| == 0 ==> RpcMessages(nm, rpc) == [])
  {
    var rpc := svcs[i].rpcs[j];
    if |rpc.query| > 0 {
      var req := RequestBlock(nm, rpc);
      RpcMessagesShape(nm, rpc, req);
      RpcsMessagesMembers(nm, svcs[i].rpcs, req);
      MessageBlocksMembers(nm, svcs, req);
      if OwnsResponse(rpc) {
        var resp := ResponseBlock(rpc);
        RpcMessagesShape(nm, rpc, resp);
        RpcsMessagesMembers(nm, svcs[i].rpcs, resp);
        MessageBlocksMembers(nm, svcs, resp);
      }
    }
  }

  /** Every emitted message is the request of an RPC with a non-empty
      request, or the owned response of such an RPC. */
  lemma MessageOrigin(nm: Naming, svcs: seq<ServiceDefinition>, b: Block)
    requires b in MessageBlocks(nm, svcs)
    ensures b.template == MessageTemplate
    ensures exists i, j :: 0 <= i < |svcs| && 0 <= j < |svcs[i].rpcs| &&
              |svcs[i].rpcs[j].query| > 0 &&
              (b == RequestBlock(nm, svcs[i].rpcs[j]) ||
               (OwnsResponse(svcs[i].rpcs[j]) && b == ResponseBlock(svcs[i].rpcs[j])))
  {
    MessageBlocksMembers(nm, svcs, b);
    var i :| 0 <= i < |svcs| && b in RpcsMessages(nm, svcs[i].rpcs);
    RpcsMessagesMembers(nm, svcs[i].rpcs, b);
    var j :| 0 <= j < |svcs[i].rpcs| && b in RpcMessages(nm, svcs[i].rpcs[j]);
    RpcMessagesShape(nm, svcs[i].rpcs[j], b);
  }

  /** The generator and its configuration. */
  class Generator {
    var api: Option<API>
    var outDir: string
    var scheme: string
    var host: string
    var genfiles: seq<string>
    const naming: Naming

    constructor (naming: Naming, api: Option<API>, outDir: string, scheme: string, host: string)
      ensures this.naming == naming && this.api == api && this.outDir == outDir
      ensures this.scheme == scheme && this.host == host && genfiles == []
    {
      this.naming := naming;
      this.api := api;
      this.outDir := outDir;
      this.scheme := scheme;
      this.host := host;
      genfiles := [];
    }

    /** `Generate`: the file list, and the blocks written to the output
        file. `svcs` are the services `parseResources` produced. */
    method Generate() returns (r: Result<seq<string>, string>, out: seq<Block>, ghost svcs: seq<ServiceDefinition>)
      requires api.Some? && DefaultHost(host, api.value.host) != "" ==>
                 && AllMediaTypesOk(api.value.mediaTypes)
                 && (MediaTypesFold(naming, api.value.mediaTypes).1.None? ==> KeptResourcesOk(api.value))
      modifies this
      ensures api == old(api) && outDir == old(outDir)
      ensures old(api).None? ==>
                r == Err(MissingAPIError) && out == [] &&
                scheme == old(scheme) && host == old(host) && genfiles == old(genfiles)
      ensures api.Some? ==>
                scheme == DefaultScheme(old(scheme), api.value.schemes) &&
                host == DefaultHost(old(host), api.value.host)
      ensures api.Some? && host == "" ==>
                r == Err(MissingHostError) && out == [] && genfiles == old(genfiles)
      ensures api.Some? && host != "" && MediaTypesFold(naming, api.value.mediaTypes).1.Some? ==>
                r == Err(MediaTypesFold(naming, api.value.mediaTypes).1.value) && out == [] && genfiles == []
      ensures api.Some? && host != "" && MediaTypesFold(naming, api.value.mediaTypes).1.None? ==>
                && genfiles == old(genfiles) + [OutFile]
                && r == Ok(genfiles)
                && ServicesFrom(naming, api.value, MediaTypesFold(naming, api.value.mediaTypes).0, svcs)
                && out == FileBlocks(naming, api.value, host, scheme, svcs)
    {
      out := [];
      svcs := [];
      if api.None? {
        r := Err(MissingAPIError);
        return;
      }
      var a := api.value;
      ApplyDefaults(a);
      if host == "" {
        r := Err(MissingHostError);
        return;
      }
      var ps, err := ParseResources(naming, a);
      if err.Some? {
        Cleanup();
        r := Err(err.value);
        return;
      }
      var w := new Writer();
      WriteFile(w, ps);
      genfiles := genfiles + [OutFile];
      r := Ok(genfiles);
      out := w.blocks;
      svcs := ps;
    }

    /** The scheme and host defaulting at the start of `Generate`. */
    method ApplyDefaults(a: API)
      modifies this
      ensures scheme == DefaultScheme(old(scheme), a.schemes) && host == DefaultHost(old(host), a.host)
      ensures api == old(api) && outDir == old(outDir) && genfiles == old(genfiles)
    {
      if scheme == "" && |a.schemes| > 0 {
        scheme := a.schemes[0];
      }
      if scheme == "" {
        scheme := DefaultSchemeName;
      }
      if host == "" {
        host := a.host;
      }
    }

    /** The three generation steps of `Generate`, in order, on one writer. */
    method WriteFile(w: Writer, services: seq<ServiceDefinition>)
      requires api.Some?
      modifies w
      ensures w.blocks == old(w.blocks) + FileBlocks(naming, api.value, host, scheme, services)
    {
      ghost var start := w.blocks;
      GenerateHeader(w);
      GenerateServices(w, services);
      GenerateMessages(w, services);
      AppendAssociative(start, [HeaderBlock(api.value, host, scheme)], ServiceBlocks(naming, services),
                        MessageBlocks(naming, services));
    }

    /** `generateHeader`. */
    method GenerateHeader(w: Writer)
      requires api.Some?
      modifies w
      ensures w.blocks == old(w.blocks) + [HeaderBlock(api.value, host, scheme)]
    {
      w.ExecuteTemplate(HeaderTemplate, HeaderData(api.value, host, scheme));
    }

    /** `generateServices`: one service block per service, in list order. */
    method GenerateServices(w: Writer, services: seq<ServiceDefinition>)
      modifies w
      ensures w.blocks == old(w.blocks) + ServiceBlocks(naming, services)
    {
      var i := 0;
      while i < |services|
        invariant 0 <= i <= |services|
        invariant |w.blocks| == |old(w.blocks)| + i
        invariant w.blocks[..|old(w.blocks)|] == old(w.blocks)
        invariant forall k :: 0 <= k < i ==> w.blocks[|old(w.blocks)| + k] == ServiceBlock(naming, services[k])
      {
        var rpcs := GetRPCs(naming, services[i]);
        w.ExecuteTemplate(ServiceTemplate, ServiceData(ServiceName(naming, services[i]), rpcs));
        i := i + 1;
      }
      assert w.blocks == old(w.blocks) + ServiceBlocks(naming, services);
    }

    /** `generateMessages`. */
    method GenerateMessages(w: Writer, services: seq<ServiceDefinition>)
      modifies w
      ensures w.blocks == old(w.blocks) + MessageBlocks(naming, services)
    {
      var i := 0;
      while i < |services|
        invariant 0 <= i <= |services|
        invariant w.blocks == old(w.blocks) + MessageBlocks(naming, services[..i])
      {
        assert services[..i + 1][..i] == services[..i] && services[..i + 1][i] == services[i];
        ghost var done := MessageBlocks(naming, services[..i]);
        ghost var added := RpcsMessages(naming, services[i].rpcs);
        assert MessageBlocks(naming, services[..i + 1]) == done + added;
        GenerateRpcMessages(w, services[i].rpcs);
        AppendAssociative3(old(w.blocks), done, added);
        i := i + 1;
      }
      assert services[..i] == services;
    }

    /** The inner loop of `generateMessages`, over one service's RPCs. */
    method GenerateRpcMessages(w: Writer, rpcs: seq<RPCDefinition>)
      modifies w
      ensures w.blocks == old(w.blocks) + RpcsMessages(naming, rpcs)
    {
      var j := 0;
      while j < |rpcs|
        invariant 0 <= j <= |rpcs|
        invariant w.blocks == old(w.blocks) + RpcsMessages(naming, rpcs[..j])
      {
        assert rpcs[..j + 1][..j] == rpcs[..j] && rpcs[..j + 1][j] == rpcs[j];
        ghost var done := RpcsMessages(naming, rpcs[..j]);
        ghost var added := RpcMessages(naming, rpcs[j]);
        assert RpcsMessages(naming, rpcs[..j + 1]) == done + added;
        GenerateRpcMessage(w, rpcs[j]);
        AppendAssociative3(old(w.blocks), done, added);
        j := j + 1;
      }
      assert rpcs[..j] == rpcs;
    }

    /** One pass of that loop: an empty request is skipped outright; the
        response message follows the request only when the RPC owns it. */
    method GenerateRpcMessage(w: Writer, p: RPCDefinition)
      modifies w
      ensures w.blocks == old(w.blocks) + RpcMessages(naming, p)
    {
      if |p.query| == 0 {
        return;
      }
      var definition := RequestDefinition(p);
      w.ExecuteTemplate(MessageTemplate, MessageData(RequestName(naming, p), definition));
      if p.response.None? || p.response.value.stream {
        return;
      }
      definition := ResponseDefinition(p);
      w.ExecuteTemplate(MessageTemplate, MessageData(p.response.value.identifierName, definition));
    }

    /** `Cleanup`: the generated-file list is emptied; nothing else changes. */
    method Cleanup()
      modifies this
      ensures genfiles == []
      ensures api == old(api) && outDir == old(outDir) && scheme == old(scheme) && host == old(host)
    {
      genfiles := [];
    }
  }
}
