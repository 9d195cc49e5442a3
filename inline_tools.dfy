/** The minimal LangGraph workflow (examples/langgraph_basic/main.py): three
    inline text tools, the keyword heuristic that picks one of them, and the
    single agent node that runs the chosen tool and logs what it did. */
module InlineTools {
  import opened Wrappers
  import opened Text

  // ---------------------------------------------------------------------------
  // The three tools
  // ---------------------------------------------------------------------------

  /** `to_upper`: `text.upper()` */
  function ToUpper(text: string): (r: string)
    ensures |r| == |text|
    ensures forall i :: 0 <= i < |text| ==> r[i] == UpperChar(text[i])
  {
    Upper(text)
  }

  /** `word_count`: the number of whitespace-separated words, as a sentence.
      That number is the count of places where a word starts: a non-space
      character at the start or right after whitespace. */
  function WordCountMessage(text: string): (r: string)
    ensures r == "The prompt contains " + IntToString(WordStarts(text)) + " words."
  {
    WordsCountsWordStarts(text);
    "The prompt contains " + IntToString(|Words(text)|) + " words."
  }

  /** `reverse`: `text[::-1]` */
  function Reverse(text: string): (r: string)
    ensures |r| == |text|
  {
    if text == [] then [] else Reverse(text[1..]) + [text[0]]
  }

  /** Upper-casing is idempotent and keeps the length. */
  lemma ToUpperIdempotent(text: string)
    ensures ToUpper(ToUpper(text)) == ToUpper(text)
    ensures |ToUpper(text)| == |text|
  {
  }

  /** Upper-casing ignores the case of the input. */
  lemma ToUpperIgnoresCase(text: string)
    ensures ToUpper(Lower(text)) == ToUpper(text)
  {
  }

  /** Character `i` of the reversal is character `|text| - 1 - i` of the
      text. */
  lemma {:induction false} ReverseAt(text: string)
    ensures forall i :: 0 <= i < |text| ==> Reverse(text)[i] == text[|text| - 1 - i]
  {
    if text != [] {
      ReverseAt(text[1..]);
    }
  }

  /** Reversing twice gives the text back. */
  lemma ReverseInvolution(text: string)
    ensures Reverse(Reverse(text)) == text
  {
    ReverseAt(text);
    ReverseAt(Reverse(text));
  }

  // ---------------------------------------------------------------------------
  // `build_toolkit`
  // ---------------------------------------------------------------------------

  /** Which of the three functions a tool wraps. */
  datatype ToolKind = ToUpperKind | WordCountKind | ReverseKind

  /** `InlineTool`: a named, described text function. */
  datatype InlineTool = InlineTool(name: string, description: string, kind: ToolKind)

  /** Calling a tool on a text: the tool's kind says which of the three
      text functions it runs. */
  function Apply(tool: InlineTool, text: string): (r: string)
    ensures tool.kind == ToUpperKind ==>
              |r| == |text| && forall i :: 0 <= i < |text| ==> r[i] == UpperChar(text[i])
    ensures tool.kind == WordCountKind ==> r == "The prompt contains " + IntToString(WordStarts(text)) + " words."
    ensures tool.kind == ReverseKind ==>
              |r| == |text| && forall i :: 0 <= i < |text| ==> r[i] == text[|text| - 1 - i]
  {
    ReverseAt(text);
    match tool.kind
    case ToUpperKind => ToUpper(text)
    case WordCountKind => WordCountMessage(text)
    case ReverseKind => Reverse(text)
  }

  const UppercaseTool: InlineTool :=
    InlineTool("uppercase", "Convert the entire string to uppercase characters.", ToUpperKind)
  const WordCountTool: InlineTool :=
    InlineTool("word_count", "Count how many words are present in the string.", WordCountKind)
  const ReverseTool: InlineTool :=
    InlineTool("reverse", "Reverse the characters in the supplied string.", ReverseKind)

  /** `{tool.name: tool for tool in tools}`: later tools replace earlier ones
      of the same name. */
  function ByName(tools: seq<InlineTool>): (r: map<string, InlineTool>)
    ensures forall k :: k in r ==> r[k].name == k
  {
    if tools == [] then map[]
    else
      var last := tools[|tools| - 1];
      ByName(tools[..|tools| - 1])[last.name := last]
  }

  /** Every tool's name is a key of the map, and every key comes from a tool. */
  lemma {:induction false} ByNameKeys(tools: seq<InlineTool>)
    ensures ByName(tools).Keys == set i | 0 <= i < |tools| :: tools[i].name
  {
    if tools != [] {
      var p := tools[..|tools| - 1];
      ByNameKeys(p);
      assert forall i :: 0 <= i < |p| ==> p[i] == tools[i];
      assert (set i | 0 <= i < |tools| :: tools[i].name)
             == (set i | 0 <= i < |p| :: p[i].name) + {tools[|tools| - 1].name};
    }
  }

  /** `build_toolkit`: exactly the three tools, each under its own name. */
  function BuildToolkit(): (r: map<string, InlineTool>)
    ensures r == map["uppercase" := UppercaseTool, "word_count" := WordCountTool, "reverse" := ReverseTool]
  {
    var tools := [UppercaseTool, WordCountTool, ReverseTool];
    assert "uppercase"[0] != "word_count"[0] && "uppercase"[0] != "reverse"[0] && "word_count"[0] != "reverse"[0];
    var one := [UppercaseTool];
    assert one[..0] == [];
    assert ByName(one) == map["uppercase" := UppercaseTool];
    var two := [UppercaseTool, WordCountTool];
    assert two[..1] == one;
    assert ByName(two) == map["uppercase" := UppercaseTool, "word_count" := WordCountTool];
    assert tools[..2] == two;
    ByName(tools)
  }

  // ---------------------------------------------------------------------------
  // `choose_tool` and the agent node
  // ---------------------------------------------------------------------------

  /** The toolkit keys `choose_tool` looks up; a missing one raises
      `KeyError` in the source. */
  predicate HasTools(tools: map<string, InlineTool>) {
    "uppercase" in tools && "word_count" in tools && "reverse" in tools
  }

  /** `choose_tool`: "upper" or "shout" anywhere in the lower-cased query
      picks the upper-casing tool, otherwise "count" picks the word counter,
      otherwise the reverser. */
  function ChooseTool(query: string, tools: map<string, InlineTool>): (r: InlineTool)
    requires HasTools(tools)
    ensures r in tools.Values
  {
    var lowered := Lower(query);
    if Contains(lowered, "upper") || Contains(lowered, "shout") then tools["uppercase"]
    else if Contains(lowered, "count") then tools["word_count"]
    else tools["reverse"]
  }

  /** With the built toolkit, the chosen tool's kind follows the keywords,
      with "upper"/"shout" taking precedence over "count". */
  lemma ChooseToolRouting(query: string)
    ensures HasTools(BuildToolkit())
    ensures var lowered := Lower(query);
            var kind := ChooseTool(query, BuildToolkit()).kind;
            && (kind == ToUpperKind <==> Contains(lowered, "upper") || Contains(lowered, "shout"))
            && (kind == WordCountKind <==>
                  !Contains(lowered, "upper") && !Contains(lowered, "shout") && Contains(lowered, "count"))
            && (kind == ReverseKind <==>
                  !Contains(lowered, "upper") && !Contains(lowered, "shout") && !Contains(lowered, "count"))
  {
  }

  /** `BasicState`: the query, the running log and the tool's result. An
      absent scratchpad is the empty sequence. */
  datatype BasicState = BasicState(query: string, scratchpad: seq<string>, result: Option<string>)

  /** The agent node: logs the query, picks a tool, logs its name and
      description, runs it on the query and logs the output. The input log is
      copied, never changed. */
  method Agent(state: BasicState, tools: map<string, InlineTool>) returns (next: BasicState)
    requires HasTools(tools)
    ensures next.query == state.query
    ensures next.result == Some(Apply(ChooseTool(state.query, tools), state.query))
    ensures |next.scratchpad| == |state.scratchpad| + 4
    ensures next.scratchpad[..|state.scratchpad|] == state.scratchpad
    ensures next.scratchpad[|state.scratchpad|..] ==
              ["Received query: " + state.query,
               "Selected tool: " + ChooseTool(state.query, tools).name,
               "Tool description: " + ChooseTool(state.query, tools).description,
               "Tool output: " + next.result.value]
  {
    var scratchpad := state.scratchpad;
    scratchpad := scratchpad + ["Received query: " + state.query];
    var tool := ChooseTool(state.query, tools);
    scratchpad := scratchpad + ["Selected tool: " + tool.name];
    scratchpad := scratchpad + ["Tool description: " + tool.description];
    var result := Apply(tool, state.query);
    scratchpad := scratchpad + ["Tool output: " + result];
    next := BasicState(state.query, scratchpad, Some(result));
  }
}
