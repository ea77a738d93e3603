/** The dashboard: a list of chatbot cards seeded with six sample bots, a
    handler that puts a newly created bot at the front, the selection made by
    a card's "chat" button, and the chat panel shown for the selection. */
module Dashboard {
  import opened Wrappers
  import opened Text
  import ChatInterface

  datatype Chatbot = Chatbot(id: string, name: string, description: string, createdAt: string, location: string)

  datatype Dashboard = Dashboard(chatbots: seq<Chatbot>, selected: Option<string>)

  /** The eight places a new bot is randomly said to be from. */
  const Locations: seq<string> := ["United States", "United Kingdom", "Germany", "Canada",
                                   "Japan", "Singapore", "France", "Australia"]

  const InitialDashboard := Dashboard([
    Chatbot("1", "Customer Support Bot", "Handles customer inquiries and support tickets", "2025-01-15", "United States"),
    Chatbot("2", "Sales Assistant", "Helps customers find products and complete purchases", "2025-01-10", "United Kingdom"),
    Chatbot("3", "Tech Helper", "Provides technical support and troubleshooting", "2025-01-12", "Germany"),
    Chatbot("4", "Healthcare Assistant", "Answers health-related questions and schedules appointments", "2025-01-08", "Canada"),
    Chatbot("5", "Language Tutor", "Helps users learn new languages through conversation", "2025-01-05", "Japan"),
    Chatbot("6", "Finance Advisor", "Provides financial advice and investment recommendations", "2025-01-03", "Singapore")
  ], None)

  /** `Math.floor(Math.random() * locations.length)` for a draw in [0, 1):
      always a position of `Locations`. */
  function LocationIndex(random: real): (i: nat)
    requires 0.0 <= random < 1.0
    ensures i < |Locations|
  {
    (random * (|Locations| as real)).Floor
  }

  /** `handleCreateChatbot`: exactly one bot goes in front of the existing
      list, which follows unchanged; it carries the name and description as
      given, an id from the clock, and one of the eight locations. The
      selection is untouched. */
  function CreateChatbot(d: Dashboard, name: string, description: string,
                         now: nat, today: string, random: real): (r: Dashboard)
    requires 0.0 <= random < 1.0
    ensures |r.chatbots| == |d.chatbots| + 1 && r.chatbots[1..] == d.chatbots
    ensures r.chatbots[0].name == name && r.chatbots[0].description == description
    ensures r.chatbots[0].location in Locations
    ensures r.chatbots[0].id == DecimalString(now) && r.chatbots[0].createdAt == today
    ensures r.selected == d.selected
  {
    var bot := Chatbot(DecimalString(now), name, description, today, Locations[LocationIndex(random)]);
    d.(chatbots := [bot] + d.chatbots)
  }

  /** The "chat" button of the card at position `i`: the selection becomes
      that bot's name (not its id); the list is untouched. */
  function ChatWithCard(d: Dashboard, i: nat): (r: Dashboard)
    requires i < |d.chatbots|
    ensures r.selected == Some(d.chatbots[i].name)
    ensures r.chatbots == d.chatbots
  {
    d.(selected := Some(d.chatbots[i].name))
  }

  /** The properties the dashboard hands the chat panel. */
  datatype ChatProps = ChatProps(chatbotName: Option<string>, organizationId: Option<string>)

  /** The chat section: shown only for a selection that is a non-empty
      string, and given the bot's name but never an organization id. */
  function ChatSection(d: Dashboard): (r: Option<ChatProps>)
    ensures r.Some? <==> d.selected.Some? && d.selected.value != ""
    ensures r.Some? ==> r.value.chatbotName == d.selected
    ensures r.Some? ==> r.value.organizationId.None?
  {
    if d.selected.Some? && d.selected.value != "" then Some(ChatProps(d.selected, None))
    else None
  }

  /** The mounted dashboard lists the six sample bots with ids "1" to "6" in
      that order, and nothing is selected. */
  lemma InitialState()
    ensures |InitialDashboard.chatbots| == 6
    ensures forall i :: 0 <= i < 6 ==> InitialDashboard.chatbots[i].id == DecimalString(i + 1)
    ensures InitialDashboard.selected.None?
    ensures ChatSection(InitialDashboard).None?
  {
  }

  /** On any dashboard, choosing a card whose bot has a non-empty name opens
      the chat for that name. */
  lemma ChoosingOpensChat(d: Dashboard, i: nat)
    requires i < |d.chatbots| && d.chatbots[i].name != ""
    ensures ChatSection(ChatWithCard(d, i)) == Some(ChatProps(Some(d.chatbots[i].name), None))
  {
  }

  /** Creating a bot shifts the existing cards by one without changing
      them: the new card opens the chat for the new bot, and the card that
      was at position `i` still selects the same bot from position `i + 1`. */
  lemma CreatedCardsStayChoosable(d: Dashboard, name: string, description: string,
                                  now: nat, today: string, random: real, i: nat)
    requires 0.0 <= random < 1.0 && i < |d.chatbots|
    ensures name != "" ==>
              ChatSection(ChatWithCard(CreateChatbot(d, name, description, now, today, random), 0))
                == Some(ChatProps(Some(name), None))
    ensures ChatWithCard(CreateChatbot(d, name, description, now, today, random), i + 1).selected
              == ChatWithCard(d, i).selected
  {
    var r := CreateChatbot(d, name, description, now, today, random);
    assert r.chatbots[i + 1] == r.chatbots[1..][i];
  }

  /** No message can be sent from the dashboard's chat: the panel gets no
      organization id, so every send is refused by the chat's guard, leaving
      the panel as it was and issuing no query. */
  lemma DashboardChatNeverSends(d: Dashboard, c: ChatInterface.Chat, clock: ChatInterface.Clock)
    requires ChatSection(d).Some?
    ensures ChatInterface.Begin(c, ChatSection(d).value.organizationId, clock) == (c, None)
  {
  }
}
