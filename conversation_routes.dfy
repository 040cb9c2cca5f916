/** The pure parts of the conversation routes: the ownership guards of the
    assign and close routes, the status filter, and the page arithmetic of the
    list and message routes. The store answers a query with its documents
    already sorted newest first (`sort({updatedAt: -1})` for conversations,
    `sort({createdAt: -1})` for messages); the model takes that sequence as
    input and applies the filter, the skip and the limit to it. */
module ConversationRoutes {
  import opened Wrappers
  import opened Models

  const DefaultListLimit := 20
  const DefaultMessageLimit := 50

  /** The assign route's guard: it answers 400 exactly when the conversation
      already belongs to someone else. */
  predicate AssignAllowed(c: Conversation, caller: AgentId) {
    c.assignedAgent.None? || c.assignedAgent == Some(caller)
  }

  /** `status && ['waiting', 'active', 'closed'].includes(status)`: any other
      value, the empty string included, leaves the query unfiltered. */
  function StatusFilter(status: Option<string>): (r: Option<Status>)
    ensures r.Some? <==> status.Some? && status.value in {"waiting", "active", "closed"}
    ensures r.Some? ==> StatusName(r.value) == status.value
  {
    match status
    case None => None
    case Some(s) => StatusNameRoundTrip(Waiting, s); StatusNameRoundTrip(Active, s);
                    StatusNameRoundTrip(Closed, s); ParseStatus(s)
  }

  predicate MatchesFilter(c: Conversation, filter: Option<Status>) {
    filter.None? || c.status == filter.value
  }

  /** The elements of `s` that `keep` accepts, in their order. */
  function Filter<T(!new)>(s: seq<T>, keep: T -> bool): (r: seq<T>)
    ensures |r| <= |s|
    ensures forall x :: x in r <==> x in s && keep(x)
    decreases |s|
  {
    if s == [] then []
    else
      var rest := Filter(s[1..], keep);
      assert forall x :: x in s <==> x == s[0] || x in s[1..];
      if keep(s[0]) then [s[0]] + rest else rest
  }

  /** The number of records the query skips: `(page - 1) * limit`. */
  function Offset(page: int, limit: int): (skip: nat)
    requires page >= 1 && limit >= 1
    ensures skip == (page - 1) * limit
  {
    (page - 1) * limit
  }

  /** A query parameter with its destructuring default. */
  function OrDefault(param: Option<int>, default: int): int {
    if param.Some? then param.value else default
  }

  /** The size of `.skip(skip).limit(limit)` over `total` records. */
  function WindowSize(total: nat, skip: nat, limit: nat): nat {
    if skip >= total then 0 else if total - skip < limit then total - skip else limit
  }

  /** `.skip(skip).limit(limit)`: at most `limit` items, starting after the
      first `skip`. */
  function Window<T>(items: seq<T>, skip: nat, limit: nat): (r: seq<T>)
    ensures |r| == WindowSize(|items|, skip, limit) && |r| <= limit
    ensures forall i :: 0 <= i < |r| ==> r[i] == items[skip + i]
  {
    if skip >= |items| then []
    else if |items| - skip < limit then items[skip..]
    else items[skip..skip + limit]
  }

  /** `Math.ceil(total / limit)`. */
  function PageCount(total: nat, limit: int): (r: nat)
    requires limit >= 1
    ensures total == 0 ==> r == 0
    ensures total > 0 ==> (r - 1) * limit < total <= r * limit
  {
    var q := (total + limit - 1) / limit;
    assert total + limit - 1 == q * limit + (total + limit - 1) % limit;
    q
  }

  datatype Pagination = Pagination(current: int, total: nat, count: nat, totalRecords: nat)

  datatype ConversationPage = ConversationPage(conversations: seq<Conversation>,
                                               pagination: Pagination)

  /** The query `{status}` the list route builds (no condition when the
      status filter does not apply). */
  function StatusQuery(status: Option<string>): Conversation -> bool {
    var filter := StatusFilter(status);
    (c: Conversation) => MatchesFilter(c, filter)
  }

  /** GET / without `search`: `page` defaults to 1 and `limit` to 20; the
      matching records are filtered by status, and the page holds the ones
      after the first `(page - 1) * limit`, at most `limit` of them, in the
      store's order. `total` is the number of pages and `totalRecords` the
      number of matching records. */
  function ListConversations(newestFirst: seq<Conversation>, status: Option<string>,
                             page: Option<int>, limit: Option<int>): (r: ConversationPage)
    requires OrDefault(page, 1) >= 1 && OrDefault(limit, DefaultListLimit) >= 1
    ensures var p, l := OrDefault(page, 1), OrDefault(limit, DefaultListLimit);
            var matching, skip := Filter(newestFirst, StatusQuery(status)), Offset(p, l);
            |r.conversations| == WindowSize(|matching|, skip, l) &&
            (forall i :: 0 <= i < |r.conversations| ==> r.conversations[i] == matching[skip + i]) &&
            r.pagination == Pagination(p, PageCount(|matching|, l), |r.conversations|, |matching|)
    ensures forall c :: c in r.conversations ==>
              c in newestFirst && MatchesFilter(c, StatusFilter(status))
  {
    var p, l := OrDefault(page, 1), OrDefault(limit, DefaultListLimit);
    var matching := Filter(newestFirst, StatusQuery(status));
    var shown := Window(matching, Offset(p, l), l);
    assert forall c :: c in shown ==> c in matching;
    ConversationPage(shown, Pagination(p, PageCount(|matching|, l), |shown|, |matching|))
  }

  /** A status outside the enumeration filters nothing: every record counts. */
  lemma UnknownStatusUnfiltered(newestFirst: seq<Conversation>, status: Option<string>,
                                page: Option<int>, limit: Option<int>)
    requires OrDefault(page, 1) >= 1 && OrDefault(limit, DefaultListLimit) >= 1
    requires status.None? || status.value !in {"waiting", "active", "closed"}
    ensures ListConversations(newestFirst, status, page, limit).pagination.totalRecords ==
            |newestFirst|
  {
    FilterAll(newestFirst, StatusQuery(status));
  }

  /** Filtering a concatenation filters each part, in order. */
  lemma {:induction false} FilterAppend<T(!new)>(s: seq<T>, t: seq<T>, keep: T -> bool)
    ensures Filter(s + t, keep) == Filter(s, keep) + Filter(t, keep)
    decreases |s|
  {
    if s != [] {
      assert (s + t)[1..] == s[1..] + t;
      FilterAppend(s[1..], t, keep);
    } else {
      assert s + t == t;
    }
  }

  /** A one-element sequence is kept or dropped whole. */
  lemma FilterSingleton<T(!new)>(x: T, keep: T -> bool)
    ensures Filter([x], keep) == if keep(x) then [x] else []
  {
    assert [x][1..] == [];
  }

  /** Filtering keeps every kept element as often as it occurs, and no other. */
  lemma {:induction false} FilterCounts<T(!new)>(s: seq<T>, keep: T -> bool, x: T)
    ensures multiset(Filter(s, keep))[x] == if keep(x) then multiset(s)[x] else 0
    decreases |s|
  {
    if s != [] {
      FilterCounts(s[1..], keep, x);
      assert s == [s[0]] + s[1..];
      assert multiset(s) == multiset([s[0]]) + multiset(s[1..]);
    }
  }

  /** A filter that keeps everything keeps the whole sequence. */
  lemma {:induction false} FilterAll<T(!new)>(s: seq<T>, keep: T -> bool)
    requires forall x :: x in s ==> keep(x)
    ensures Filter(s, keep) == s
    decreases |s|
  {
    if s != [] {
      FilterAll(s[1..], keep);
    }
  }

  /** Newest first: `createdAt` never increases along the sequence. */
  predicate NewestFirst(ms: seq<Message>) {
    forall i, j :: 0 <= i < j < |ms| ==> ms[i].createdAt >= ms[j].createdAt
  }

  predicate OldestFirst(ms: seq<Message>) {
    forall i, j :: 0 <= i < j < |ms| ==> ms[i].createdAt <= ms[j].createdAt
  }

  function Reverse<T>(s: seq<T>): (r: seq<T>)
    ensures |r| == |s|
    ensures forall i :: 0 <= i < |s| ==> r[i] == s[|s| - 1 - i]
  {
    if s == [] then [] else Reverse(s[1..]) + [s[0]]
  }

  /** The query `{conversationId}` of the message route. */
  function InConversation(conversationId: ConvId): Message -> bool {
    (m: Message) => m.conversationId == conversationId
  }

  datatype MessagePage = MessagePage(messages: seq<Message>, pagination: Pagination)

  /** GET /:conversationId/messages: `page` defaults to 1 and `limit` to 50;
      one page of the conversation's messages is taken newest first and then
      reversed, so its i-th message is the conversation's
      (skip + count - 1 - i)-th newest. `totalRecords` counts all the
      conversation's messages. */
  function MessagesPage(newestFirst: seq<Message>, conversationId: ConvId,
                        page: Option<int>, limit: Option<int>): (r: MessagePage)
    requires OrDefault(page, 1) >= 1 && OrDefault(limit, DefaultMessageLimit) >= 1
    ensures var p, l := OrDefault(page, 1), OrDefault(limit, DefaultMessageLimit);
            var own, skip := Filter(newestFirst, InConversation(conversationId)), Offset(p, l);
            var n := |r.messages|;
            n == WindowSize(|own|, skip, l) &&
            (forall i :: 0 <= i < n ==> r.messages[i] == own[skip + n - 1 - i]) &&
            r.pagination == Pagination(p, PageCount(|own|, l), n, |own|)
    ensures forall m :: m in r.messages ==> m in newestFirst && m.conversationId == conversationId
  {
    var p, l := OrDefault(page, 1), OrDefault(limit, DefaultMessageLimit);
    var own := Filter(newestFirst, InConversation(conversationId));
    var r := Reverse(Window(own, Offset(p, l), l));
    ReversedWindow(own, Offset(p, l), l);
    MessagePage(r, Pagination(p, PageCount(|own|, l), |r|, |own|))
  }

  /** The reversed page, element by element, and where its elements come from. */
  lemma ReversedWindow<T>(items: seq<T>, skip: nat, limit: nat)
    ensures var r := Reverse(Window(items, skip, limit));
            |r| == WindowSize(|items|, skip, limit) &&
            (forall i :: 0 <= i < |r| ==> r[i] == items[skip + |r| - 1 - i]) &&
            forall x :: x in r ==> x in items
  {
    var w := Window(items, skip, limit);
    var r := Reverse(w);
    forall x | x in r ensures x in items {
      var i :| 0 <= i < |r| && r[i] == x;
      assert r[i] == w[|w| - 1 - i] == items[skip + |w| - 1 - i];
    }
  }

  /** Filtering keeps the order of what it keeps. */
  lemma {:induction false} FilterKeepsNewestFirst(ms: seq<Message>, keep: Message -> bool)
    requires NewestFirst(ms)
    ensures NewestFirst(Filter(ms, keep))
    decreases |ms|
  {
    if ms != [] {
      var rest := Filter(ms[1..], keep);
      assert NewestFirst(ms[1..]);
      FilterKeepsNewestFirst(ms[1..], keep);
      if keep(ms[0]) {
        var r := [ms[0]] + rest;
        forall i, j | 0 <= i < j < |r| ensures r[i].createdAt >= r[j].createdAt {
          if i == 0 {
            assert r[j] in ms[1..];
          }
        }
      }
    }
  }

  /** A page of a newest-first sequence is newest first. */
  lemma WindowKeepsNewestFirst(ms: seq<Message>, skip: nat, limit: nat)
    requires NewestFirst(ms)
    ensures NewestFirst(Window(ms, skip, limit))
  {
    var w := Window(ms, skip, limit);
    forall i, j | 0 <= i < j < |w| ensures w[i].createdAt >= w[j].createdAt {
      assert w[i] == ms[skip + i] && w[j] == ms[skip + j];
    }
  }

  /** Reversing a newest-first sequence gives an oldest-first one. */
  lemma ReverseNewestFirst(ms: seq<Message>)
    requires NewestFirst(ms)
    ensures OldestFirst(Reverse(ms))
  {
    var r := Reverse(ms);
    forall i, j | 0 <= i < j < |r| ensures r[i].createdAt <= r[j].createdAt {
      assert r[i] == ms[|ms| - 1 - i] && r[j] == ms[|ms| - 1 - j];
    }
  }

  /** The message page reads oldest first when the store answers newest first. */
  lemma MessagesPageOldestFirst(newestFirst: seq<Message>, conversationId: ConvId,
                                page: Option<int>, limit: Option<int>)
    requires OrDefault(page, 1) >= 1 && OrDefault(limit, DefaultMessageLimit) >= 1
    requires NewestFirst(newestFirst)
    ensures OldestFirst(MessagesPage(newestFirst, conversationId, page, limit).messages)
  {
    var p, l := OrDefault(page, 1), OrDefault(limit, DefaultMessageLimit);
    var own := Filter(newestFirst, InConversation(conversationId));
    FilterKeepsNewestFirst(newestFirst, InConversation(conversationId));
    WindowKeepsNewestFirst(own, Offset(p, l), l);
    ReverseNewestFirst(Window(own, Offset(p, l), l));
  }
}
