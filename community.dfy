/** The community page (src/pages/Community.tsx): the topic kept in the URL's
    `topic` search parameter, the message list it filters, the tab labels,
    the draft placeholder and the draft message itself. */
module Community {
  import opened Wrappers
  import opened Seqs
  import opened Strings

  /** `ChatMessage`. */
  datatype Message = Message(id: string, user: string, avatar: string, text: string, topic: string, timestamp: string)

  /** The URL's search parameters. */
  type SearchParams = map<string, string>

  /** `MOCK_MESSAGES`. */
  const MockMessages: seq<Message> := [
    Message("1", "EcoWarrior99", "https://picsum.photos/40/40?random=1",
      "Does anyone have tips for composting in an apartment?", "tips", "2h ago"),
    Message("2", "GreenAlice", "https://picsum.photos/40/40?random=2",
      "Just joined the local beach cleanup! It was amazing to see so many people.", "events", "5h ago"),
    Message("3", "SolarSam", "https://picsum.photos/40/40?random=3",
      "Good morning everyone! Happy Earth Day!", "general", "10m ago"),
    Message("4", "BioBob", "https://picsum.photos/40/40?random=4",
      "I switched to LED bulbs finally. The difference in my bill is noticeable.", "tips", "1d ago"),
    Message("5", "NatureNancy", "https://picsum.photos/40/40?random=5",
      "Who is going to the Farmers Market this weekend?", "events", "3h ago")
  ]

  /** The topic tabs, in display order. */
  const Tabs: seq<string> := ["all", "general", "tips", "events"]

  const AllTopics: string := "all"

  /** `searchParams.get('topic') || 'all'`: an absent or empty parameter means all topics. */
  function CurrentTopic(params: SearchParams): (t: string)
    ensures t != ""
    ensures "topic" !in params || params["topic"] == "" ==> t == AllTopics
    ensures "topic" in params && params["topic"] != "" ==> t == params["topic"]
  {
    if "topic" in params && params["topic"] != "" then params["topic"] else AllTopics
  }

  /** The parameters `handleTopicChange(topic)` sets: none for `'all'`. */
  function ParamsFor(topic: string): (params: SearchParams)
    ensures topic == AllTopics <==> params == map[]
    ensures topic != AllTopics ==> params.Keys == {"topic"} && params["topic"] == topic
  {
    if topic == AllTopics then map[]
    else
      var params := map["topic" := topic];
      assert "topic" in params;
      params
  }

  /** `filteredMessages`. */
  function FilteredMessages(topic: string, messages: seq<Message>): (shown: seq<Message>)
    ensures topic == AllTopics ==> shown == messages
    ensures |shown| <= |messages|
    ensures topic != AllTopics ==> forall m :: m in shown ==> m in messages && m.topic == topic
  {
    if topic == AllTopics then messages else Filter(messages, (m: Message) => m.topic == topic)
  }

  /** The label of a tab: the topic with its first character upper-cased
      and the rest unchanged. */
  function TabLabel(topic: string): (caption: string)
    ensures |caption| == |topic|
    ensures |topic| > 0 ==> caption[0] == ToUpper(topic[0]) && caption[1..] == topic[1..]
    ensures |topic| > 0 && 'a' <= topic[0] <= 'z' ==> 'A' <= caption[0] <= 'Z' && caption[0] != topic[0]
  {
    Capitalize(topic)
  }

  /** The draft's placeholder: the `general` channel stands in for all topics. */
  function Placeholder(topic: string): (p: string)
    ensures |p| >= 12 && p[..9] == "Message #" && p[|p| - 3..] == "..."
    ensures p[9..|p| - 3] == if topic == AllTopics then "general" else topic
  {
    "Message #" + (if topic == AllTopics then "general" else topic) + "..."
  }

  /** Choosing a tab and reading the topic back gives that tab's topic; the same
      holds for every non-empty topic, and `'all'` clears the parameters. */
  lemma TopicRoundTrip(topic: string)
    requires topic != ""
    ensures CurrentTopic(ParamsFor(topic)) == topic
    ensures topic == AllTopics <==> ParamsFor(topic) == map[]
  {
    if topic != AllTopics {
      assert "topic" in ParamsFor(topic);
    }
  }

  /** Every tab round-trips. */
  lemma TabsRoundTrip()
    ensures forall i :: 0 <= i < |Tabs| ==> CurrentTopic(ParamsFor(Tabs[i])) == Tabs[i]
  {
    forall i | 0 <= i < |Tabs| ensures CurrentTopic(ParamsFor(Tabs[i])) == Tabs[i] {
      TopicRoundTrip(Tabs[i]);
    }
  }

  /** Any other topic keeps exactly the messages of that topic, in their order. */
  lemma FilterByTopic(topic: string, messages: seq<Message>)
    requires topic != AllTopics
    ensures forall m :: m in FilteredMessages(topic, messages) <==> m in messages && m.topic == topic
    ensures forall m :: multiset(FilteredMessages(topic, messages))[m] ==
                       if m.topic == topic then multiset(messages)[m] else 0
    ensures IsSubsequence(FilteredMessages(topic, messages), messages)
  {
    var p := (m: Message) => m.topic == topic;
    forall m ensures m in Filter(messages, p) <==> m in messages && m.topic == topic {
      FilterMembership(messages, p, m);
    }
    forall m ensures multiset(Filter(messages, p))[m] == if m.topic == topic then multiset(messages)[m] else 0 {
      FilterMultiset(messages, p, m);
    }
    FilterIsSubsequence(messages, p);
  }

  /** `'all'` shows every message in its original order. */
  lemma AllShowsEverything(messages: seq<Message>)
    ensures FilteredMessages(CurrentTopic(map[]), messages) == messages
  {
  }

  /** A topic no mock message has, whether it comes from no tab or from a
      hand-written URL, shows the empty state. */
  lemma UnknownTopicIsEmpty(topic: string)
    requires topic !in {"all", "general", "tips", "events"}
    ensures FilteredMessages(topic, MockMessages) == []
  {
    FilterNone(MockMessages, (m: Message) => m.topic == topic);
  }

  /** How many mock messages each known topic shows. */
  lemma MockTopics()
    ensures |FilteredMessages("tips", MockMessages)| == 2
    ensures |FilteredMessages("events", MockMessages)| == 2
    ensures |FilteredMessages("general", MockMessages)| == 1
  {
    var m := MockMessages;
    assert m[4..][1..] == [];
    assert m[3..][1..] == m[4..];
    assert m[2..][1..] == m[3..];
    assert m[1..][1..] == m[2..];
  }

  /** The four tab labels. */
  lemma TabLabels()
    ensures TabLabel("all") == "All" && TabLabel("general") == "General"
    ensures TabLabel("tips") == "Tips" && TabLabel("events") == "Events"
  {
  }

  class CommunityPage {
    var searchParams: SearchParams
    var newMessage: string

    constructor (params: SearchParams)
      ensures searchParams == params && newMessage == ""
    {
      searchParams := params;
      newMessage := "";
    }

    function Topic(): string
      reads this
    {
      CurrentTopic(searchParams)
    }

    /** The messages the feed shows. */
    function Visible(): seq<Message>
      reads this
    {
      FilteredMessages(Topic(), MockMessages)
    }

    /** `handleTopicChange`. */
    method HandleTopicChange(topic: string)
      modifies this
      ensures searchParams == ParamsFor(topic) && newMessage == old(newMessage)
      ensures topic != "" ==> Topic() == topic && Visible() == FilteredMessages(topic, MockMessages)
    {
      searchParams := if topic == AllTopics then map[] else map["topic" := topic];
      if topic != "" {
        TopicRoundTrip(topic);
      }
    }

    /** The draft's `onChange`. */
    method EditDraft(text: string)
      modifies this
      ensures newMessage == text && searchParams == old(searchParams)
    {
      newMessage := text;
    }

    /** The send button: clears the draft; nothing is sent. */
    method Send()
      modifies this
      ensures newMessage == "" && searchParams == old(searchParams)
    {
      newMessage := "";
    }
  }
}
