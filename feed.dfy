/** The Web3 Daily feed: five platform tabs, each backed by one CMS endpoint;
    a fetch on every tab change; and a view that shows a loading line, a
    no-content message or one card per post. */
module DailyFeed {
  import opened Wrappers

  /** The tab labels, in the key order of the endpoints table. */
  const TabLabels: seq<string> := ["X", "TikTok", "YouTube", "Reddit", "X Spaces"]

  /** The endpoints table: tab label to CMS collection. */
  const Endpoints: map<string, string> :=
    map["X" := "xes", "TikTok" := "tik-toks", "YouTube" := "youtubes", "Reddit" := "reddits", "X Spaces" := "x-spaces"]

  const ApiBase: string := "https://web3daily-cms.onrender.com/api/"

  /** The table has exactly the five labels as keys, listed once each, and
      no two labels share an endpoint. */
  lemma EndpointsTable()
    ensures Endpoints.Keys == set l | l in TabLabels
    ensures forall i, j :: 0 <= i < j < |TabLabels| ==> TabLabels[i] != TabLabels[j]
    ensures forall a, b :: a in Endpoints && b in Endpoints && Endpoints[a] == Endpoints[b] ==> a == b
  {
  }

  /** endpoints[activeTab] interpolated into a template string: a label
      outside the table reads as "undefined". */
  function EndpointText(tab: string): string {
    if tab in Endpoints then Endpoints[tab] else "undefined"
  }

  /** The request URL for a tab. */
  function RequestUrl(tab: string): (url: string)
    ensures |url| > |ApiBase| && url[..|ApiBase|] == ApiBase
    ensures tab in Endpoints ==> url[|ApiBase|..] == Endpoints[tab]
    ensures tab !in Endpoints ==> url[|ApiBase|..] == "undefined"
  {
    ApiBase + EndpointText(tab)
  }

  /** Each tab of the table fetches from its own URL. */
  lemma RequestUrlInjective(a: string, b: string)
    requires a in Endpoints && b in Endpoints
    requires RequestUrl(a) == RequestUrl(b)
    ensures a == b
  {
    assert Endpoints[a] == RequestUrl(a)[|ApiBase|..];
    EndpointsTable();
  }

  /** A post's attributes, each an optional string. */
  datatype Attrs = Attrs(
    displayName: Option<string>,
    tweetText: Option<string>,
    description: Option<string>,
    tweetUrl: Option<string>,
    videoUrl: Option<string>)

  /** A post: its id and optional attributes. */
  datatype Post = Post(id: nat, attributes: Option<Attrs>)

  /** JavaScript a || b || ... on strings: the first truthy operand, or the
      last operand when none is truthy. */
  function OrChain(operands: seq<Option<string>>): (r: Option<string>)
    requires |operands| > 0
    ensures r in operands
    ensures Truthy(r) <==> exists i :: 0 <= i < |operands| && Truthy(operands[i])
    ensures Truthy(r) ==>
      exists i :: 0 <= i < |operands| && r == operands[i] && (forall j :: 0 <= j < i ==> !Truthy(operands[j]))
    ensures !Truthy(r) ==> r == operands[|operands| - 1]
  {
    if |operands| == 1 || Truthy(operands[0]) then operands[0]
    else
      var rest := OrChain(operands[1..]);
      assert forall i :: 1 <= i < |operands| ==> operands[i] == operands[1..][i - 1];
      rest
  }

  /** The chain yields operand i when it is the first truthy one. */
  lemma {:induction false} OrChainPicksFirstTruthy(operands: seq<Option<string>>, i: nat)
    requires i < |operands|
    ensures Truthy(operands[i]) && (forall j :: 0 <= j < i ==> !Truthy(operands[j])) ==> OrChain(operands) == operands[i]
  {
    if i > 0 && Truthy(operands[i]) && (forall j :: 0 <= j < i ==> !Truthy(operands[j])) {
      assert operands[1..][i - 1] == operands[i];
      assert forall j :: 0 <= j < i - 1 ==> operands[1..][j] == operands[j + 1];
      OrChainPicksFirstTruthy(operands[1..], i - 1);
    }
  }

  /** attrs?.field: undefined when the post has no attributes. */
  function DisplayName(p: Post): Option<string> {
    if p.attributes.Some? then p.attributes.value.displayName else None
  }

  function TweetText(p: Post): Option<string> {
    if p.attributes.Some? then p.attributes.value.tweetText else None
  }

  function Description(p: Post): Option<string> {
    if p.attributes.Some? then p.attributes.value.description else None
  }

  function TweetUrl(p: Post): Option<string> {
    if p.attributes.Some? then p.attributes.value.tweetUrl else None
  }

  function VideoUrl(p: Post): Option<string> {
    if p.attributes.Some? then p.attributes.value.videoUrl else None
  }

  /** A card's heading: the display name, or "Untitled". */
  function Title(p: Post): (s: string)
    ensures s != ""
    ensures Truthy(DisplayName(p)) ==> s == DisplayName(p).value
    ensures !Truthy(DisplayName(p)) ==> s == "Untitled"
  {
    OrChain([DisplayName(p), Some("Untitled")]).value
  }

  /** A card's text: the tweet text, else the description, else a fixed line. */
  function Body(p: Post): (s: string)
    ensures s != ""
    ensures Truthy(TweetText(p)) ==> s == TweetText(p).value
    ensures !Truthy(TweetText(p)) && Truthy(Description(p)) ==> s == Description(p).value
    ensures !Truthy(TweetText(p)) && !Truthy(Description(p)) ==> s == "No content provided."
  {
    var ops := [TweetText(p), Description(p), Some("No content provided.")];
    OrChainPicksFirstTruthy(ops, 1);
    OrChainPicksFirstTruthy(ops, 2);
    OrChain(ops).value
  }

  /** A card's "View Original" link: present exactly when the tweet URL or
      the video URL is truthy, and then pointing at the tweet URL first. */
  function Link(p: Post): (l: Option<string>)
    ensures l.Some? <==> Truthy(TweetUrl(p)) || Truthy(VideoUrl(p))
    ensures l.Some? ==> l.value != ""
    ensures Truthy(TweetUrl(p)) ==> l == TweetUrl(p)
    ensures !Truthy(TweetUrl(p)) && Truthy(VideoUrl(p)) ==> l == VideoUrl(p)
  {
    if Truthy(OrChain([TweetUrl(p), VideoUrl(p)])) then OrChain([TweetUrl(p), VideoUrl(p)]) else None
  }

  datatype Card = Card(key: nat, title: string, body: string, link: Option<string>)

  function CardOf(p: Post): Card {
    Card(p.id, Title(p), Body(p), Link(p))
  }

  /** The three view modes below the tab buttons. */
  datatype View = Loading | NoContent(message: string) | Cards(cards: seq<Card>)

  function ViewOf(loading: bool, posts: seq<Post>, activeTab: string): (v: View)
    ensures v.Loading? <==> loading
    ensures v.NoContent? <==> !loading && posts == []
    ensures v.NoContent? ==> v.message == "No content available for " + activeTab + "."
    ensures v.Cards? ==>
      |v.cards| == |posts| > 0 && (forall i :: 0 <= i < |posts| ==> v.cards[i] == CardOf(posts[i]))
  {
    if loading then Loading
    else if |posts| == 0 then NoContent("No content available for " + activeTab + ".")
    else Cards(seq(|posts|, i requires 0 <= i < |posts| => CardOf(posts[i])))
  }

  /** The tab buttons, in table order, each with whether it is highlighted. */
  function Buttons(activeTab: string): (bs: seq<(string, bool)>)
    ensures |bs| == |TabLabels|
    ensures forall i :: 0 <= i < |bs| ==> bs[i].0 == TabLabels[i]
  {
    seq(|TabLabels|, i requires 0 <= i < |TabLabels| => (TabLabels[i], TabLabels[i] == activeTab))
  }

  /** Exactly the button labelled with the active tab is highlighted: one
      button when the active tab is a label of the table, none otherwise. */
  lemma OneButtonHighlighted(activeTab: string, i: nat)
    requires i < |TabLabels|
    ensures Buttons(activeTab)[i].1 <==> TabLabels[i] == activeTab
    ensures Buttons(activeTab)[i].1 ==> forall j :: 0 <= j < |TabLabels| && j != i ==> !Buttons(activeTab)[j].1
  {
    EndpointsTable();
  }

  /** How a request ends: the response's data list, or an error. */
  datatype FetchResult = Success(data: seq<Post>) | Failure

  /** The feed component's state. */
  class Feed {
    var activeTab: string
    var posts: seq<Post>
    var loading: bool

    /** useState("X"), useState([]) and useState(false). The fetch effect
        also runs on mount, so a StartFetch for "X" follows construction. */
    constructor ()
      ensures activeTab == "X" && posts == [] && !loading
    {
      activeTab := "X";
      posts := [];
      loading := false;
    }

    /** A tab button's onClick. The effect that fetches runs again only when
        the active tab actually changed, which refetch reports. */
    method SelectTab(platform: string) returns (refetch: bool)
      modifies this
      ensures activeTab == platform && posts == old(posts) && loading == old(loading)
      ensures refetch <==> platform != old(activeTab)
    {
      refetch := platform != activeTab;
      activeTab := platform;
    }

    /** The first half of fetchPosts: loading starts and the request goes to
        the URL of the active tab. */
    method StartFetch() returns (url: string)
      modifies this
      ensures loading && posts == old(posts) && activeTab == old(activeTab)
      ensures url == RequestUrl(activeTab)
    {
      loading := true;
      url := RequestUrl(activeTab);
    }

    /** The second half of fetchPosts: on success the posts become the
        response list, on failure they stay; loading ends either way. */
    method FinishFetch(res: FetchResult)
      modifies this
      ensures !loading && activeTab == old(activeTab)
      ensures res.Success? ==> posts == res.data
      ensures res.Failure? ==> posts == old(posts)
    {
      if res.Success? {
        posts := res.data;
      }
      loading := false;
    }
  }
}
