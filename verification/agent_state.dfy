/** The state each agent instance owns, passed in and returned explicitly. */
module AgentState {
  import opened Wrappers
  import opened Conversation
  import Polling

  datatype Agent = Agent(chatHistory: History, pollingInterval: int)

  /** A freshly constructed agent: empty history, `POLLING_INTERVAL` or its default. */
  function NewAgent(pollingSetting: Option<int>): (a: Agent)
    ensures a.chatHistory == [] && Valid(a.chatHistory)
    ensures pollingSetting.None? ==> a.pollingInterval == 300
    ensures pollingSetting.Some? ==> a.pollingInterval == pollingSetting.value
  {
    Agent([], pollingSetting.GetOr(Polling.DefaultPollingInterval))
  }
}
