/** models/voice_agent.py: the object that ties the voice components together.
 *  The ServiceNow, bridge and RAG references it stores are passed on and never
 *  read here, so they are left out; the call monitor routes through the same
 *  router object, so a change of LLM made here is the one it sees. */
module VoiceAgents {
  import opened Values
  import VoiceRouting
  import Webhook

  const DefaultLlm: string := "OPENAI"

  class VoiceAgent {
    var preferredLlm: string
    var router: VoiceRouting.ToolCallRouter

    /** The preference and the router's copy of it agree. */
    predicate Valid()
      reads this, router
    {
      preferredLlm == router.llmChoice
    }

    /** `__init__` (lines 9-20): the preference starts as "OPENAI" and the
     *  router is built with it. */
    constructor ()
      ensures preferredLlm == DefaultLlm && router.llmChoice == DefaultLlm
      ensures fresh(router) && Valid()
    {
      preferredLlm := DefaultLlm;
      router := new VoiceRouting.ToolCallRouter(DefaultLlm);
    }

    /** `handle_webhook(event)` (lines 22-24): the webhook handler's answer and
     *  actions, unchanged. */
    method HandleWebhook(event: Webhook.Event, accept: string -> bool) returns (handled: bool, actions: seq<Webhook.Action>)
      ensures (handled, actions) == Webhook.Handle(event, accept)
      ensures handled <==> event.kind == Webhook.IncomingCall
    {
      handled, actions := Webhook.Handle(event, accept).0, Webhook.Handle(event, accept).1;
    }

    /** `change_llm(llm_name)` (lines 26-30): both copies of the preference
     *  take the new name, the router stays the same object, and its routing
     *  is unaffected. */
    method ChangeLlm(llmName: string)
      modifies this, router
      ensures preferredLlm == llmName && router.llmChoice == llmName && Valid()
      ensures router == old(router)
      ensures forall name, arguments :: router.Route(name, arguments) == old(router.Route(name, arguments))
    {
      preferredLlm := llmName;
      router.llmChoice := llmName;
    }
  }
}
