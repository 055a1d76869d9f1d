/**
 * `ProposalProcessor` after construction: the retrieval stages, section
 * generation, `build_document`, the `send_email` guard and the fixed graph
 * of stages. The pipeline state is a dictionary the stages update in
 * place; the retriever and the chat model are external calls, modelled as
 * functions of their query or prompt.
 */
module Pipeline {
  import opened Wrappers
  import opened Text
  import opened Layout
  import Config

  datatype Document = Document(pageContent: string)

  /** The values the state dictionary holds: document lists, a path, the email flag. */
  datatype Value = Docs(docs: seq<Document>) | Str(s: string) | Flag(b: bool)

  /**
   * What a stage raises when the state lacks a key or holds the wrong kind
   * of value there: iterating a boolean raises TypeError, and iterating a
   * non-empty string yields characters, which have no `page_content`.
   */
  datatype StageError = KeyError(key: string) | TypeError(key: string) | AttributeError(key: string)

  datatype Outcome = Done | Raised(error: StageError)

  const OPPORTUNITY_DOCS := "opportunity_docs"
  const CORPORATE_DOCS := "corporate_docs"
  const STAFF_DOCS := "staff_docs"
  const CAPABILITIES_DOCS := "capabilities_docs"
  const EXPERIENCE_DOCS := "experience_docs"
  const PDF_PATH_KEY := "pdf_path"
  const SEND_EMAIL_KEY := "send_email"

  const PDF_PATH := "proposal_response.pdf"

  const OPPORTUNITY_QUERY := "opportunity requirements scope objectives criteria"
  const CORPORATE_QUERY := "company overview history mission values"
  const STAFF_QUERY := "staff profiles expertise qualifications experience"

  function CapabilitiesQuery(opportunityText: string): string {
    "capabilities and competencies relevant to: " + opportunityText
  }

  function ExperienceQuery(opportunityText: string): string {
    "past projects and experience relevant to: " + opportunityText
  }

  /**
   * A constructed processor. `retrieve` is the vector-store retriever,
   * `complete` the chat model configured by `setup`; both are calls into
   * external services.
   */
  datatype Processor = Processor(
    setup: Config.Setup,
    emailConfig: Option<map<string, string>>,
    retrieve: string -> seq<Document>,
    complete: string -> string)

  /** The state dictionary threaded through the stages. */
  class State {
    var entries: map<string, Value>

    constructor (initial: map<string, Value>)
      ensures entries == initial
    {
      entries := initial;
    }
  }

  /** `"\n".join(doc.page_content for doc in docs)`. */
  function PageText(docs: seq<Document>): string {
    Join(seq(|docs|, i requires 0 <= i < |docs| => docs[i].pageContent), "\n")
  }

  /**
   * A value the comprehension `[doc.page_content for doc in value]` runs
   * through: a document list, or the empty string, over which it iterates
   * zero times.
   */
  predicate ReadsAsDocs(v: Value) {
    v.Docs? || v == Str("")
  }

  /** `state[key]` read as a document list. */
  function DocsAt(entries: map<string, Value>, key: string): (r: Result<seq<Document>, StageError>)
    ensures r.Success? <==> key in entries && ReadsAsDocs(entries[key])
    ensures key !in entries ==> r == Failure(KeyError(key))
    ensures r.Success? ==> r.value == if entries[key].Docs? then entries[key].docs else []
    ensures key in entries && entries[key].Str? && entries[key].s != "" ==> r == Failure(AttributeError(key))
    ensures key in entries && entries[key].Flag? ==> r == Failure(TypeError(key))
  {
    if key !in entries then Failure(KeyError(key))
    else
      match entries[key]
      case Docs(docs) => Success(docs)
      case Str(s) => if s == "" then Success([]) else Failure(AttributeError(key))
      case Flag(_) => Failure(TypeError(key))
  }

  method RetrieveOpportunityDocs(p: Processor, state: State)
    modifies state
    ensures state.entries == old(state.entries)[OPPORTUNITY_DOCS := Docs(p.retrieve(OPPORTUNITY_QUERY))]
  {
    var docs := p.retrieve(OPPORTUNITY_QUERY);
    state.entries := state.entries[OPPORTUNITY_DOCS := Docs(docs)];
  }

  method RetrieveCorporateDocs(p: Processor, state: State)
    modifies state
    ensures state.entries == old(state.entries)[CORPORATE_DOCS := Docs(p.retrieve(CORPORATE_QUERY))]
  {
    var docs := p.retrieve(CORPORATE_QUERY);
    state.entries := state.entries[CORPORATE_DOCS := Docs(docs)];
  }

  method RetrieveStaffDocs(p: Processor, state: State)
    modifies state
    ensures state.entries == old(state.entries)[STAFF_DOCS := Docs(p.retrieve(STAFF_QUERY))]
  {
    var docs := p.retrieve(STAFF_QUERY);
    state.entries := state.entries[STAFF_DOCS := Docs(docs)];
  }

  /** Reads the opportunity documents and writes the capabilities documents retrieved for them. */
  method RetrieveCapabilitiesDocs(p: Processor, state: State) returns (r: Outcome)
    modifies state
    ensures match DocsAt(old(state.entries), OPPORTUNITY_DOCS)
            case Failure(e) => r == Raised(e) && state.entries == old(state.entries)
            case Success(opportunity) =>
              r == Done &&
              state.entries == old(state.entries)[CAPABILITIES_DOCS :=
                                 Docs(p.retrieve(CapabilitiesQuery(PageText(opportunity))))]
  {
    var opportunity := DocsAt(state.entries, OPPORTUNITY_DOCS);
    if opportunity.Failure? {
      return Raised(opportunity.error);
    }
    var docs := p.retrieve(CapabilitiesQuery(PageText(opportunity.value)));
    state.entries := state.entries[CAPABILITIES_DOCS := Docs(docs)];
    r := Done;
  }

  /** Reads the opportunity documents and writes the experience documents retrieved for them. */
  method RetrieveExperienceDocs(p: Processor, state: State) returns (r: Outcome)
    modifies state
    ensures match DocsAt(old(state.entries), OPPORTUNITY_DOCS)
            case Failure(e) => r == Raised(e) && state.entries == old(state.entries)
            case Success(opportunity) =>
              r == Done &&
              state.entries == old(state.entries)[EXPERIENCE_DOCS :=
                                 Docs(p.retrieve(ExperienceQuery(PageText(opportunity))))]
  {
    var opportunity := DocsAt(state.entries, OPPORTUNITY_DOCS);
    if opportunity.Failure? {
      return Raised(opportunity.error);
    }
    var docs := p.retrieve(ExperienceQuery(PageText(opportunity.value)));
    state.entries := state.entries[EXPERIENCE_DOCS := Docs(docs)];
    r := Done;
  }

  /** The prompt templates, each the text that precedes its `{documents}` placeholder. */
  const TEMPLATES: map<string, string> := map[
    "corporate_overview" := "Write a comprehensive corporate overview based on: ",
    "staff_profile" := "Create detailed staff profiles highlighting relevant expertise based on: ",
    "capabilities" := "Describe capabilities relevant to the opportunity requirements based on: ",
    "experience" := "Detail relevant corporate experience and past projects based on: ",
    "responses" := "Provide specific responses to opportunity questions and requirements based on: "
  ]

  /** The sections of the proposal, in order, each with the state key of its documents. */
  const SECTIONS: seq<(string, string)> := [
    ("corporate_overview", CORPORATE_DOCS),
    ("staff_profile", STAFF_DOCS),
    ("capabilities", CAPABILITIES_DOCS),
    ("experience", EXPERIENCE_DOCS),
    ("responses", OPPORTUNITY_DOCS)
  ]

  /**
   * `generate_section`: fills the section's template with the page text of
   * the documents under `docsKey` and asks the chat model. An unknown
   * section or a missing document list raises.
   */
  function GenerateSection(p: Processor, entries: map<string, Value>, section: string, docsKey: string)
    : (r: Result<string, StageError>)
    ensures r.Success? <==> section in TEMPLATES && docsKey in entries && ReadsAsDocs(entries[docsKey])
    ensures section !in TEMPLATES ==> r == Failure(KeyError(section))
    ensures section in TEMPLATES && r.Failure? ==> r.error == DocsAt(entries, docsKey).error
    ensures r.Success? ==> r.value == p.complete(TEMPLATES[section] + PageText(DocsAt(entries, docsKey).value))
  {
    if section !in TEMPLATES then Failure(KeyError(section))
    else
      match DocsAt(entries, docsKey)
      case Failure(e) => Failure(e)
      case Success(docs) => Success(p.complete(TEMPLATES[section] + PageText(docs)))
  }

  /** The `content` dictionary: each section's generated text, in section order; the first failure raises. */
  function Generated(p: Processor, entries: map<string, Value>, sections: seq<(string, string)>)
    : Result<seq<(string, string)>, StageError>
    decreases |sections|
  {
    if sections == [] then Success([])
    else
      match GenerateSection(p, entries, sections[0].0, sections[0].1)
      case Failure(e) => Failure(e)
      case Success(text) => Prepend([(sections[0].0, text)], Generated(p, entries, sections[1..]))
  }

  function Prepend(done: seq<(string, string)>, rest: Result<seq<(string, string)>, StageError>)
    : Result<seq<(string, string)>, StageError>
  {
    match rest
    case Failure(e) => Failure(e)
    case Success(more) => Success(done + more)
  }

  lemma PrependTwice(a: seq<(string, string)>, b: seq<(string, string)>, rest: Result<seq<(string, string)>, StageError>)
    ensures Prepend(a, Prepend(b, rest)) == Prepend(a + b, rest)
  {
    if rest.Success? {
      assert a + (b + rest.value) == (a + b) + rest.value;
    }
  }

  /**
   * Generation succeeds exactly when every section has a template and a
   * document list in the state; the content then holds one text per
   * section, in section order, each the completion of its own prompt.
   */
  lemma {:induction false} GeneratedSpec(p: Processor, entries: map<string, Value>, sections: seq<(string, string)>)
    requires forall i :: 0 <= i < |sections| ==> sections[i].0 in TEMPLATES
    ensures Generated(p, entries, sections).Success? <==>
            forall i :: 0 <= i < |sections| ==> sections[i].1 in entries && ReadsAsDocs(entries[sections[i].1])
    ensures Generated(p, entries, sections).Success? ==>
            var content := Generated(p, entries, sections).value;
            |content| == |sections| &&
            forall i :: 0 <= i < |sections| ==>
              content[i] == (sections[i].0, GenerateSection(p, entries, sections[i].0, sections[i].1).value)
    decreases |sections|
  {
    if sections != [] {
      GeneratedSpec(p, entries, sections[1..]);
      assert forall i :: 1 <= i < |sections| ==> sections[i] == sections[1..][i - 1];
    }
  }

  /**
   * `build_document`: generates every section, lays the sections out on a
   * fresh canvas for PDF_PATH, and records the path in the state. If a
   * section cannot be generated it raises before the state is touched.
   */
  method BuildDocument(p: Processor, state: State) returns (r: Result<seq<DrawEvent>, StageError>)
    modifies state
    ensures match Generated(p, old(state.entries), SECTIONS)
            case Failure(e) => r == Failure(e) && state.entries == old(state.entries)
            case Success(content) =>
              r == Success(DocumentEvents(TOP_Y, content)) &&
              state.entries == old(state.entries)[PDF_PATH_KEY := Str(PDF_PATH)]
  {
    var content: seq<(string, string)> := [];
    assert SECTIONS[0..] == SECTIONS;
    PrependTwice([], [], Generated(p, state.entries, SECTIONS));
    assert Prepend([], Generated(p, state.entries, SECTIONS)) == Generated(p, state.entries, SECTIONS) by {
      var g := Generated(p, state.entries, SECTIONS);
      if g.Success? {
        assert [] + g.value == g.value;
      }
    }
    for i := 0 to |SECTIONS|
      invariant state.entries == old(state.entries)
      invariant Generated(p, state.entries, SECTIONS) == Prepend(content, Generated(p, state.entries, SECTIONS[i..]))
    {
      var section, docsKey := SECTIONS[i].0, SECTIONS[i].1;
      assert SECTIONS[i..][0] == SECTIONS[i] && SECTIONS[i..][1..] == SECTIONS[i + 1..];
      var text := GenerateSection(p, state.entries, section, docsKey);
      if text.Failure? {
        return Failure(text.error);
      }
      PrependTwice(content, [(section, text.value)], Generated(p, state.entries, SECTIONS[i + 1..]));
      content := content + [(section, text.value)];
    }
    assert SECTIONS[|SECTIONS|..] == [];
    assert content + [] == content;
    var c := new Canvas(PDF_PATH);
    var y := LayOutDocument(c, content);
    assert c.events == DocumentEvents(TOP_Y, content);
    state.entries := state.entries[PDF_PATH_KEY := Str(PDF_PATH)];
    r := Success(c.events);
  }

  /** The five document keys `build_document` reads. */
  const DOC_KEYS := {OPPORTUNITY_DOCS, CORPORATE_DOCS, STAFF_DOCS, CAPABILITIES_DOCS, EXPERIENCE_DOCS}

  /** `build_document` generates all five sections exactly when all five document lists are present. */
  lemma BuildNeedsAllDocs(p: Processor, entries: map<string, Value>)
    ensures Generated(p, entries, SECTIONS).Success? <==>
            forall k :: k in DOC_KEYS ==> k in entries && ReadsAsDocs(entries[k])
    ensures Generated(p, entries, SECTIONS).Success? ==>
            var content := Generated(p, entries, SECTIONS).value;
            |content| == 5 &&
            content[0].0 == "corporate_overview" && content[1].0 == "staff_profile" &&
            content[2].0 == "capabilities" && content[3].0 == "experience" && content[4].0 == "responses"
  {
    GeneratedSpec(p, entries, SECTIONS);
    assert forall i :: 0 <= i < |SECTIONS| ==> SECTIONS[i].1 in DOC_KEYS;
    assert forall k :: k in DOC_KEYS ==>
             k == SECTIONS[0].1 || k == SECTIONS[1].1 || k == SECTIONS[2].1 || k == SECTIONS[3].1 || k == SECTIONS[4].1;
  }

  /** The titles `build_document` draws, in order. */
  lemma SectionTitles()
    ensures Title(SECTIONS[0].0) == "CORPORATE OVERVIEW"
    ensures Title(SECTIONS[1].0) == "STAFF PROFILE"
    ensures Title(SECTIONS[2].0) == "CAPABILITIES"
    ensures Title(SECTIONS[3].0) == "EXPERIENCE"
    ensures Title(SECTIONS[4].0) == "RESPONSES"
  {
  }

  /** An email that would be sent: addresses, subject, the PDF attachment and the SMTP login. */
  datatype Mail = Mail(
    from: string, to: string, subject: string,
    attachmentPath: string, attachmentName: string,
    smtpServer: string, username: string, password: string)

  /** Python truthiness of a state value. */
  predicate IsTruthy(v: Value) {
    match v
    case Docs(docs) => docs != []
    case Str(s) => s != ""
    case Flag(b) => b
  }

  /** The `send_email` guard: an email configuration is set and not empty, and `state.get("send_email")` is truthy. */
  predicate ShouldSend(emailConfig: Option<map<string, string>>, entries: map<string, Value>) {
    emailConfig.Some? && emailConfig.value != map[] &&
    SEND_EMAIL_KEY in entries && IsTruthy(entries[SEND_EMAIL_KEY])
  }

  /** The keys `send_email` reads from the email configuration, in the order it reads them. */
  const MAIL_KEYS := ["from", "to", "smtp_server", "username", "password"]

  /**
   * `send_email`: the state is never changed (the result carries only what
   * would be sent). Without the guard nothing is sent; with it, the message
   * is built from the configuration and the PDF path in the state, and a
   * missing key raises.
   */
  function SendEmail(emailConfig: Option<map<string, string>>, entries: map<string, Value>)
    : (r: Result<Option<Mail>, StageError>)
    ensures r == Success(None) <==> !ShouldSend(emailConfig, entries)
    ensures (ShouldSend(emailConfig, entries) &&
             (forall k :: k in MAIL_KEYS ==> k in emailConfig.value) &&
             PDF_PATH_KEY in entries && entries[PDF_PATH_KEY].Str?) ==> r.Success?
    ensures r.Success? && r.value.Some? ==>
            && ShouldSend(emailConfig, entries)
            && (forall k :: k in MAIL_KEYS ==> k in emailConfig.value)
            && PDF_PATH_KEY in entries && entries[PDF_PATH_KEY].Str?
            && var cfg := emailConfig.value;
               r.value.value == Mail(cfg["from"], cfg["to"], "Proposal Response",
                                     entries[PDF_PATH_KEY].s, PDF_PATH,
                                     cfg["smtp_server"], cfg["username"], cfg["password"])
    ensures ShouldSend(emailConfig, entries) ==>
            var cfg := emailConfig.value;
            && ("from" !in cfg ==> r == Failure(KeyError("from")))
            && ("from" in cfg && "to" !in cfg ==> r == Failure(KeyError("to")))
            && ("from" in cfg && "to" in cfg && PDF_PATH_KEY !in entries ==> r == Failure(KeyError(PDF_PATH_KEY)))
            && ("from" in cfg && "to" in cfg && PDF_PATH_KEY in entries && !entries[PDF_PATH_KEY].Str? ==>
                  r == Failure(TypeError(PDF_PATH_KEY)))
    ensures ShouldSend(emailConfig, entries) && PDF_PATH_KEY in entries && entries[PDF_PATH_KEY].Str? ==>
            var cfg := emailConfig.value;
            && ("from" in cfg && "to" in cfg && "smtp_server" !in cfg ==> r == Failure(KeyError("smtp_server")))
            && ("from" in cfg && "to" in cfg && "smtp_server" in cfg && "username" !in cfg ==>
                  r == Failure(KeyError("username")))
            && ("from" in cfg && "to" in cfg && "smtp_server" in cfg && "username" in cfg && "password" !in cfg ==>
                  r == Failure(KeyError("password")))
  {
    if !ShouldSend(emailConfig, entries) then Success(None)
    else
      var cfg := emailConfig.value;
      if "from" !in cfg then Failure(KeyError("from"))
      else if "to" !in cfg then Failure(KeyError("to"))
      else if PDF_PATH_KEY !in entries then Failure(KeyError(PDF_PATH_KEY))
      else if !entries[PDF_PATH_KEY].Str? then Failure(TypeError(PDF_PATH_KEY))
      else if "smtp_server" !in cfg then Failure(KeyError("smtp_server"))
      else if "username" !in cfg then Failure(KeyError("username"))
      else if "password" !in cfg then Failure(KeyError("password"))
      else
        Success(Some(Mail(cfg["from"], cfg["to"], "Proposal Response",
                          entries[PDF_PATH_KEY].s, PDF_PATH,
                          cfg["smtp_server"], cfg["username"], cfg["password"])))
  }

  /** LangGraph's END node. */
  const END := "__end__"

  datatype Graph = Graph(nodes: seq<string>, edges: seq<(string, string)>)

  /**
   * The nodes form one path: the i-th edge leaves the i-th node for the
   * next one, the last edge leaves the last node for END, and no node
   * occurs twice.
   */
  predicate IsLinearChain(g: Graph) {
    && |g.nodes| > 0
    && |g.edges| == |g.nodes|
    && END !in g.nodes
    && (forall i, j :: 0 <= i < j < |g.nodes| ==> g.nodes[i] != g.nodes[j])
    && (forall i {:trigger g.edges[i]} :: 0 <= i < |g.edges| ==>
          g.edges[i] == (g.nodes[i], if i + 1 < |g.nodes| then g.nodes[i + 1] else END))
  }

  /** The targets of the edges leaving `n`, in order. */
  function Successors(g: Graph, n: string): seq<string>
    decreases |g.edges|
  {
    if g.edges == [] then []
    else (if g.edges[0].0 == n then [g.edges[0].1] else [])
         + Successors(Graph(g.nodes, g.edges[1..]), n)
  }

  /** In a linear chain every node has exactly one successor: the next node, or END after the last. */
  lemma {:induction false} ChainSuccessor(g: Graph, i: nat)
    requires IsLinearChain(g) && i < |g.nodes|
    ensures Successors(g, g.nodes[i]) == [if i + 1 < |g.nodes| then g.nodes[i + 1] else END]
  {
    SuccessorsOfSuffix(g, 0, i);
  }

  lemma {:induction false} SuccessorsOfSuffix(g: Graph, k: nat, i: nat)
    requires IsLinearChain(g) && k <= |g.edges| && i < |g.nodes|
    ensures Successors(Graph(g.nodes, g.edges[k..]), g.nodes[i]) ==
            if k <= i then [if i + 1 < |g.nodes| then g.nodes[i + 1] else END] else []
    decreases |g.edges| - k
  {
    var h := Graph(g.nodes, g.edges[k..]);
    if k < |g.edges| {
      assert g.nodes[k] == g.nodes[i] <==> k == i;
      var next := if k + 1 < |g.nodes| then g.nodes[k + 1] else END;
      assert g.edges[k] == (g.nodes[k], next);
      assert h.edges[0] == g.edges[k];
      assert Graph(h.nodes, h.edges[1..]) == Graph(g.nodes, g.edges[k + 1..]);
      SuccessorsOfSuffix(g, k + 1, i);
    } else {
      assert h.edges == [];
    }
  }

  /**
   * `build_graph`: the seven stages, added in this order and chained by
   * edges from the opportunity stage to END. The source sets no entry
   * point; the first node added is where a run is taken to start.
   */
  function BuildGraph(): (g: Graph)
    ensures IsLinearChain(g)
    ensures g.nodes[0] == "opportunity" && g.nodes[|g.nodes| - 1] == "email"
  {
    Graph(
      ["opportunity", "corporate", "staff", "capabilities", "experience", "build", "email"],
      [("opportunity", "corporate"), ("corporate", "staff"), ("staff", "capabilities"),
       ("capabilities", "experience"), ("experience", "build"), ("build", "email"), ("email", END)])
  }

  /** The keys the stages write, all of them keys of the graph's state schema. */
  const WRITTEN_KEYS := DOC_KEYS + {PDF_PATH_KEY}

  /**
   * One run along the chain of BuildGraph, entered at its first node: the
   * five retrieval stages, then `build_document`, then `send_email`. Every
   * stage finds what it reads, so the document is always built; the state
   * ends with the six written keys added or overwritten and every other
   * key as it was.
   */
  method Run(p: Processor, state: State)
    returns (built: Result<seq<DrawEvent>, StageError>, sent: Result<Option<Mail>, StageError>)
    modifies state
    ensures built.Success?
    ensures state.entries.Keys == old(state.entries).Keys + WRITTEN_KEYS
    ensures forall k :: k in DOC_KEYS ==> state.entries[k].Docs?
    ensures state.entries[PDF_PATH_KEY] == Str(PDF_PATH)
    ensures forall k :: k in old(state.entries) && k !in WRITTEN_KEYS ==> state.entries[k] == old(state.entries)[k]
    ensures sent == SendEmail(p.emailConfig, state.entries)
    ensures state.entries == Retrieved(p, old(state.entries))[PDF_PATH_KEY := Str(PDF_PATH)]
    ensures Generated(p, Retrieved(p, old(state.entries)), SECTIONS).Success?
    ensures built == Success(DocumentEvents(TOP_Y, Generated(p, Retrieved(p, old(state.entries)), SECTIONS).value))
  {
    ghost var e0 := state.entries;
    RetrieveOpportunityDocs(p, state);
    RetrieveCorporateDocs(p, state);
    RetrieveStaffDocs(p, state);
    ghost var e3 := state.entries;
    assert DocsAt(e3, OPPORTUNITY_DOCS) == Success(p.retrieve(OPPORTUNITY_QUERY));
    var capabilities := RetrieveCapabilitiesDocs(p, state);
    assert DocsAt(state.entries, OPPORTUNITY_DOCS) == Success(p.retrieve(OPPORTUNITY_QUERY));
    var experience := RetrieveExperienceDocs(p, state);
    assert state.entries == Retrieved(p, e0);
    RetrievedSpec(p, e0);
    BuildNeedsAllDocs(p, state.entries);
    built := BuildDocument(p, state);
    sent := SendEmail(p.emailConfig, state.entries);
  }

  /** The state after the five retrieval stages of one run, started from `entries`. */
  ghost function Retrieved(p: Processor, entries: map<string, Value>): map<string, Value> {
    var opportunity := p.retrieve(OPPORTUNITY_QUERY);
    entries[OPPORTUNITY_DOCS := Docs(opportunity)]
           [CORPORATE_DOCS := Docs(p.retrieve(CORPORATE_QUERY))]
           [STAFF_DOCS := Docs(p.retrieve(STAFF_QUERY))]
           [CAPABILITIES_DOCS := Docs(p.retrieve(CapabilitiesQuery(PageText(opportunity))))]
           [EXPERIENCE_DOCS := Docs(p.retrieve(ExperienceQuery(PageText(opportunity))))]
  }

  lemma RetrievedSpec(p: Processor, entries: map<string, Value>)
    ensures Retrieved(p, entries).Keys == entries.Keys + DOC_KEYS
    ensures forall k :: k in DOC_KEYS ==> Retrieved(p, entries)[k].Docs?
    ensures forall k :: k in entries && k !in DOC_KEYS ==> Retrieved(p, entries)[k] == entries[k]
    ensures var after := Retrieved(p, entries)[PDF_PATH_KEY := Str(PDF_PATH)];
            && after.Keys == entries.Keys + WRITTEN_KEYS
            && (forall k :: k in DOC_KEYS ==> after[k].Docs?)
            && (forall k :: k in entries && k !in WRITTEN_KEYS ==> after[k] == entries[k])
  {
  }
}
