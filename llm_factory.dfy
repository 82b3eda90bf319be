/** models/llm_factory.py: the class-level registry that maps an LLM name to
 *  its factory (filled as each factory subclass is defined), and the lookup
 *  that builds a service from it. The services themselves are foreign. */
module LlmFactory {
  import opened Values

  datatype Factory = OpenAiFactory | ClaudeFactory
  datatype Service = OpenAiService | ClaudeService

  /** `create_llm_service` of each factory (lines 26-27, 31-32). */
  function Create(f: Factory): (s: Service)
    ensures f.OpenAiFactory? <==> s.OpenAiService?
  {
    match f
    case OpenAiFactory => OpenAiService
    case ClaudeFactory => ClaudeService
  }

  /** `get_llm_instance(llm)` (lines 15-22) over a registry's contents: the
   *  key is looked up exactly as given, and a name with no factory gives None. */
  function Instance(registry: map<string, Factory>, llm: string): (r: Option<Service>)
    ensures r.Some? <==> llm in registry
    ensures llm in registry ==> r == Some(Create(registry[llm]))
  {
    if llm in registry then Some(Create(registry[llm])) else None
  }

  class Registry {
    /** `_factories_registry`. */
    var factories: map<string, Factory>

    constructor ()
      ensures factories == map[]
    {
      factories := map[];
    }

    /** `__init_subclass__(cls, llm)` (lines 8-9): a later subclass under the
     *  same name replaces the earlier one; other names keep their factory. */
    method Register(llm: string, f: Factory)
      modifies this
      ensures factories == old(factories)[llm := f]
      ensures Instance(factories, llm) == Some(Create(f))
      ensures forall other | other != llm :: Instance(factories, other) == Instance(old(factories), other)
    {
      factories := factories[llm := f];
    }

    /** `get_llm_instance(llm)` against the current registry. */
    method GetLlmInstance(llm: string) returns (r: Option<Service>)
      ensures r == Instance(factories, llm)
    {
      if llm in factories {
        r := Some(Create(factories[llm]));
      } else {
        r := None;
      }
    }
  }

  /** The registry once both factory classes (lines 24, 29) are defined. */
  method DefineFactories() returns (registry: Registry)
    ensures fresh(registry)
    ensures registry.factories == map["OPENAI" := OpenAiFactory, "Claude" := ClaudeFactory]
  {
    registry := new Registry();
    registry.Register("OPENAI", OpenAiFactory);
    registry.Register("Claude", ClaudeFactory);
  }

  /** With the two defined factories, exactly "OPENAI" and "Claude", spelled
   *  so, give a service: "OPENAI" the OpenAI one, "Claude" the Claude one;
   *  other capitalisations such as "openai" or "CLAUDE" give None. */
  lemma DefinedNamesOnly(llm: string)
    ensures var r := Instance(map["OPENAI" := OpenAiFactory, "Claude" := ClaudeFactory], llm);
      && (r.Some? <==> llm == "OPENAI" || llm == "Claude")
      && (llm == "OPENAI" ==> r == Some(OpenAiService))
      && (llm == "Claude" ==> r == Some(ClaudeService))
    ensures Instance(map["OPENAI" := OpenAiFactory, "Claude" := ClaudeFactory], "openai") == None
    ensures Instance(map["OPENAI" := OpenAiFactory, "Claude" := ClaudeFactory], "CLAUDE") == None
  {
    assert "openai" != "OPENAI" by { assert "openai"[0] != "OPENAI"[0]; }
    assert "CLAUDE" != "Claude" by { assert "CLAUDE"[1] != "Claude"[1]; }
  }
}
