/**
 * One-shot messages carried in the session between two requests: `Flash`
 * appends an entry to the list stored under "_messages", and
 * `GetFlashedMessages` takes the whole list out of the session.
 */
module FlashMessages {
  import opened Wrappers
  import opened Values
  import opened Http

  datatype FlashCategory = Primary | Secondary | Success | Danger | Warning | Info

  /** The category's `value`, as stored in the session. */
  function CategoryValue(c: FlashCategory): string {
    match c
    case Primary => "primary"
    case Secondary => "secondary"
    case Success => "success"
    case Danger => "danger"
    case Warning => "warning"
    case Info => "info"
  }

  /** Different categories are stored as different strings. */
  lemma CategoryValueInjective(c: FlashCategory, d: FlashCategory)
    ensures CategoryValue(c) == CategoryValue(d) ==> c == d
  {
  }

  const MessagesKey: string := "_messages"

  /** The entry stored for one flashed message. */
  function Entry(message: string, category: FlashCategory): Value {
    Dict(map["message" := Str(message), "category" := Str(CategoryValue(category))])
  }

  /** The entries for a series of messages, in order. */
  function Entries(batch: seq<(string, FlashCategory)>): (r: seq<Value>)
    ensures |r| == |batch|
  {
    if batch == [] then [] else [Entry(batch[0].0, batch[0].1)] + Entries(batch[1..])
  }

  /** The i-th entry is the one for the i-th message. */
  lemma {:induction false} EntriesElementwise(batch: seq<(string, FlashCategory)>)
    ensures forall i :: 0 <= i < |batch| ==> Entries(batch)[i] == Entry(batch[i].0, batch[i].1)
    decreases |batch|
  {
    if batch != [] {
      EntriesElementwise(batch[1..]);
      forall i | 1 <= i < |batch|
        ensures Entries(batch)[i] == Entry(batch[i].0, batch[i].1)
      {
        assert Entries(batch)[i] == Entries(batch[1..])[i - 1];
        assert batch[i] == batch[1..][i - 1];
      }
    }
  }

  /** Appending to what is stored under "_messages" raises unless it is a list. */
  datatype FlashError = AttributeError

  /** The session's message queue can be appended to: absent, or a list. */
  predicate WellFormed(session: SessionData) {
    MessagesKey in session ==> session[MessagesKey].List?
  }

  /** The messages waiting in a well-formed session. */
  function Queue(session: SessionData): seq<Value> {
    if MessagesKey in session && session[MessagesKey].List? then session[MessagesKey].items else []
  }

  /**
   * `flash`: create an empty list under "_messages" when there is none, then
   * append one entry at its end.  Nothing else in the session changes.
   */
  function Flashed(session: SessionData, message: string, category: FlashCategory): (r: Result<SessionData, FlashError>)
    ensures r.Success? <==> WellFormed(session)
    ensures r.Success? ==>
      && WellFormed(r.value)
      && r.value.Keys == session.Keys + {MessagesKey}
      && Queue(r.value) == Queue(session) + [Entry(message, category)]
      && forall k :: k in session && k != MessagesKey ==> r.value[k] == session[k]
  {
    var created := if MessagesKey !in session then session[MessagesKey := List([])] else session;
    match created[MessagesKey]
    case List(items) => Result.Success(created[MessagesKey := List(items + [Entry(message, category)])])
    case _ => Failure(AttributeError)
  }

  /**
   * `get_flashed_messages`: whatever "_messages" held (an empty list when
   * absent), and the session without that key.
   */
  function Popped(session: SessionData): (r: (Value, SessionData))
    ensures r.1 == session - {MessagesKey}
    ensures MessagesKey in session ==> r.0 == session[MessagesKey]
    ensures WellFormed(session) ==> r.0 == List(Queue(session))
  {
    if MessagesKey in session then (session[MessagesKey], session - {MessagesKey})
    else (List([]), session)
  }

  method Flash(request: Request, message: string, category: FlashCategory := Primary) returns (r: Outcome<FlashError>)
    modifies request
    ensures var f := Flashed(old(request.session), message, category);
      && (r.Pass? <==> f.Success?)
      && request.session == (if f.Success? then f.value else old(request.session))
  {
    if MessagesKey !in request.session {
      request.session := request.session[MessagesKey := List([])];
    }
    var stored := request.session[MessagesKey];
    if !stored.List? {
      return Fail(AttributeError);
    }
    request.session := request.session[MessagesKey := List(stored.items + [Entry(message, category)])];
    r := Pass;
  }

  method GetFlashedMessages(request: Request) returns (messages: Value)
    modifies request
    ensures (messages, request.session) == Popped(old(request.session))
  {
    if MessagesKey in request.session {
      messages := request.session[MessagesKey];
      request.session := request.session - {MessagesKey};
    } else {
      messages := List([]);
    }
  }

  /** A message flashed with no category is filed as `primary`. */
  method FlashDefaultCategory(message: string) returns (messages: Value)
    ensures messages == List([Dict(map["message" := Str(message), "category" := Str("primary")])])
  {
    var request := new Request(map[]);
    var _ := Flash(request, message);
    messages := GetFlashedMessages(request);
  }

  /** Taking the messages twice: the second time there are none. */
  lemma PoppedTwice(session: SessionData)
    ensures Popped(Popped(session).1).0 == List([])
    ensures Popped(Popped(session).1).1 == Popped(session).1
  {
  }

  /** A series of requests each flashing one message. */
  function FlashAll(session: SessionData, batch: seq<(string, FlashCategory)>): (r: SessionData)
    requires WellFormed(session)
    ensures WellFormed(r)
    decreases |batch|
  {
    if batch == [] then session
    else FlashAll(Flashed(session, batch[0].0, batch[0].1).value, batch[1..])
  }

  /** A series of flashes is one flash followed by the rest of the series. */
  lemma FlashAllUnfold(session: SessionData, batch: seq<(string, FlashCategory)>)
    requires WellFormed(session) && batch != []
    ensures FlashAll(session, batch) == FlashAll(Flashed(session, batch[0].0, batch[0].1).value, batch[1..])
  {
  }

  /** Appending one element and then a sequence appends their concatenation. */
  lemma AppendCons<T>(q: seq<T>, e: T, rest: seq<T>)
    ensures q + [e] + rest == q + ([e] + rest)
  {
  }

  /** The first flash's entry, then the rest of the series' entries, are the whole series' entries. */
  lemma QueueThenEntries(session: SessionData, batch: seq<(string, FlashCategory)>)
    requires WellFormed(session) && batch != []
    ensures Queue(Flashed(session, batch[0].0, batch[0].1).value) + Entries(batch[1..]) == Queue(session) + Entries(batch)
  {
    var entry := Entry(batch[0].0, batch[0].1);
    var rest := Entries(batch[1..]);
    assert Entries(batch) == [entry] + rest;
    AppendCons(Queue(session), entry, rest);
  }

  /** A series of flashes appends the series' entries to the queue, in order. */
  lemma {:induction false} FlashAllAppends(session: SessionData, batch: seq<(string, FlashCategory)>)
    requires WellFormed(session)
    ensures Queue(FlashAll(session, batch)) == Queue(session) + Entries(batch)
    decreases |batch|
  {
    if batch != [] {
      FlashAllUnfold(session, batch);
      QueueThenEntries(session, batch);
      FlashAllAppends(Flashed(session, batch[0].0, batch[0].1).value, batch[1..]);
    }
  }

  /** A series of flashes leaves every key but "_messages" as it was. */
  lemma {:induction false} FlashAllKeepsOthers(session: SessionData, batch: seq<(string, FlashCategory)>)
    requires WellFormed(session)
    ensures forall k :: k != MessagesKey ==> (k in FlashAll(session, batch) <==> k in session)
    ensures forall k :: k != MessagesKey && k in session ==> FlashAll(session, batch)[k] == session[k]
    decreases |batch|
  {
    if batch != [] {
      FlashAllKeepsOthers(Flashed(session, batch[0].0, batch[0].1).value, batch[1..]);
    }
  }

  /**
   * Flashing a series of messages appends their entries to the queue in the
   * order they were flashed, and leaves every other key as it was.
   */
  lemma FlashAllQueues(session: SessionData, batch: seq<(string, FlashCategory)>)
    requires WellFormed(session)
    ensures Queue(FlashAll(session, batch)) == Queue(session) + Entries(batch)
    ensures forall k :: k != MessagesKey ==> (k in FlashAll(session, batch) <==> k in session)
    ensures forall k :: k != MessagesKey && k in session ==> FlashAll(session, batch)[k] == session[k]
  {
    FlashAllAppends(session, batch);
    FlashAllKeepsOthers(session, batch);
  }

  /**
   * Starting from a session without messages, the messages taken out after a
   * series of flashes are exactly the flashed ones, in order, and the queue is
   * empty afterwards.
   */
  lemma FlashedThenTaken(session: SessionData, batch: seq<(string, FlashCategory)>)
    requires MessagesKey !in session
    ensures Popped(FlashAll(session, batch)).0 == List(Entries(batch))
    ensures Popped(Popped(FlashAll(session, batch)).1).0 == List([])
  {
    FlashAllQueues(session, batch);
  }
}
