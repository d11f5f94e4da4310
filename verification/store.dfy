/**
  The database behind the chat application: the `Message` and `CommandMessage` tables, the
  clock that `timezone.now()` reads and the source of fresh uuids. The command table is the
  handoff point between the dispatcher (creates pending rows), the response receiver (answers a
  row found by correlation id) and the update poller (delivers and deletes answered rows).
 */
module Store {
  import opened Wrappers
  import opened Seqs
  import opened Payloads
  import opened Models

  predicate EarlierMessage(a: Message, b: Message) {
    a.datePosted < b.datePosted
  }

  /** Rows are stored in creation order: strictly increasing `date_posted`, distinct uuids. */
  predicate EarlierCommand(a: CommandRecord, b: CommandRecord) {
    a.datePosted < b.datePosted && a.uuid != b.uuid
  }

  /**
    Both answer columns are set together, the answer comes after the post, and every date
    lies before the current clock.
   */
  predicate WellFormedRecord(r: CommandRecord, clock: Timestamp) {
    && r.datePosted < clock
    && (r.dateAnswered.Some? <==> r.response.Some?)
    && (r.dateAnswered.Some? ==> r.datePosted < r.dateAnswered.value < clock)
  }

  ghost predicate CommandTable(rs: seq<CommandRecord>, clock: Timestamp, nextUuid: Uuid) {
    && PairwiseOrdered(rs, EarlierCommand)
    && forall i :: 0 <= i < |rs| ==> rs[i].uuid < nextUuid && WellFormedRecord(rs[i], clock)
  }

  /** `CommandMessage.objects.get(uuid=id)`: the position of the row with that uuid, if any. */
  function IndexOf(rs: seq<CommandRecord>, id: Uuid): (i: Option<nat>)
    ensures i.Some? ==> i.value < |rs| && rs[i.value].uuid == id
    ensures i.None? <==> forall k :: 0 <= k < |rs| ==> rs[k].uuid != id
  {
    if rs == [] then None
    else if rs[|rs| - 1].uuid == id then Some(|rs| - 1)
    else IndexOf(rs[..|rs| - 1], id)
  }

  /** The rows the poller hands to `user`: the user's rows whose answer has arrived. */
  predicate Deliverable(r: CommandRecord, user: User) {
    r.user == user && r.dateAnswered.Some?
  }

  /**
    `filter(user=user, date_answered__isnull=False)`, oldest first (`order_by('-date_posted')`
    reversed; table order is date order).
   */
  function AnsweredBy(rs: seq<CommandRecord>, user: User): (r: seq<CommandRecord>)
    ensures forall i :: 0 <= i < |r| ==> Deliverable(r[i], user) && r[i] in rs
    ensures forall i :: 0 <= i < |rs| && Deliverable(rs[i], user) ==> rs[i] in r
  {
    Filter(rs, r => Deliverable(r, user))
  }

  /**
    The table after `filter(user=user, date_answered__isnull=False).delete()`: pending rows
    and other users' rows survive, in their order.
   */
  function Undelivered(rs: seq<CommandRecord>, user: User): (r: seq<CommandRecord>)
    ensures forall i :: 0 <= i < |rs| && (rs[i].IsPending() || rs[i].user != user) ==> rs[i] in r
    ensures forall i :: 0 <= i < |r| ==> r[i] in rs && !Deliverable(r[i], user)
  {
    Filter(rs, r => !Deliverable(r, user))
  }

  /** Delivery then deletion loses no row and duplicates none. */
  lemma PollPartition(rs: seq<CommandRecord>, user: User)
    ensures multiset(AnsweredBy(rs, user)) + multiset(Undelivered(rs, user)) == multiset(rs)
  {
    FilterPartition(rs, r => Deliverable(r, user), r => !Deliverable(r, user));
  }

  /** A row added at the end of the table is delivered after all earlier rows, if at all. */
  lemma AnsweredByAppend(rs: seq<CommandRecord>, r: CommandRecord, user: User)
    ensures AnsweredBy(rs + [r], user) == AnsweredBy(rs, user) + (if Deliverable(r, user) then [r] else [])
    ensures Undelivered(rs + [r], user) == Undelivered(rs, user) + (if Deliverable(r, user) then [] else [r])
  {
    FilterAppend(rs, [r], r => Deliverable(r, user));
    FilterAppend(rs, [r], r => !Deliverable(r, user));
  }

  /** After the delete, nothing is left for the same user to be handed again. */
  lemma {:induction false} DrainIsComplete(rs: seq<CommandRecord>, user: User)
    ensures AnsweredBy(Undelivered(rs, user), user) == []
  {
    NothingToDeliver(Undelivered(rs, user), user);
  }

  lemma {:induction false} NothingToDeliver(rs: seq<CommandRecord>, user: User)
    requires forall i :: 0 <= i < |rs| ==> !Deliverable(rs[i], user)
    ensures AnsweredBy(rs, user) == []
    decreases |rs|
  {
    if rs != [] {
      NothingToDeliver(rs[..|rs| - 1], user);
    }
  }

  /** The caller's answered rows come out in ascending `date_posted` order. */
  lemma AnsweredOldestFirst(rs: seq<CommandRecord>, user: User)
    requires PairwiseOrdered(rs, EarlierCommand)
    ensures PairwiseOrdered(AnsweredBy(rs, user), EarlierCommand)
  {
    FilterKeepsOrder(rs, r => Deliverable(r, user), EarlierCommand);
  }

  /** A row whose uuid no other row shares occurs once in the table. */
  lemma {:induction false} DistinctRowOccursOnce(rs: seq<CommandRecord>, k: nat)
    requires PairwiseOrdered(rs, EarlierCommand)
    requires k < |rs|
    ensures multiset(rs)[rs[k]] == 1
    decreases |rs|
  {
    var init, last := rs[..|rs| - 1], rs[|rs| - 1];
    assert rs == init + [last];
    assert PairwiseOrdered(init, EarlierCommand) by {
      forall i, j | 0 <= i < j < |init| ensures EarlierCommand(init[i], init[j]) {
        assert init[i] == rs[i] && init[j] == rs[j];
      }
    }
    if k == |rs| - 1 {
      assert multiset(init)[last] == 0;
    } else {
      DistinctRowOccursOnce(init, k);
      assert EarlierCommand(rs[k], last);
      assert init[k] == rs[k];
    }
  }

  /**
    In a well-formed table, every answered row of the caller is handed over exactly once by
    a poll and is absent from the table afterwards.
   */
  lemma DeliveredExactlyOnce(rs: seq<CommandRecord>, user: User, k: nat)
    requires PairwiseOrdered(rs, EarlierCommand)
    requires k < |rs| && Deliverable(rs[k], user)
    ensures multiset(AnsweredBy(rs, user))[rs[k]] == 1
    ensures rs[k] !in Undelivered(rs, user)
  {
    PollPartition(rs, user);
    DistinctRowOccursOnce(rs, k);
    assert rs[k] in AnsweredBy(rs, user);
  }

  class Database {
    var messages: seq<Message>
    var commands: seq<CommandRecord>
    var clock: Timestamp
    var nextUuid: Uuid

    ghost predicate Valid()
      reads this
    {
      && PairwiseOrdered(messages, EarlierMessage)
      && (forall i :: 0 <= i < |messages| ==> messages[i].datePosted < clock)
      && CommandTable(commands, clock, nextUuid)
    }

    constructor ()
      ensures Valid() && messages == [] && commands == []
    {
      messages, commands := [], [];
      clock, nextUuid := 0, 0;
    }

    /** `timezone.now()`: every reading is later than the previous one. */
    method Now() returns (t: Timestamp)
      modifies this`clock
      ensures t == old(clock) && clock == old(clock) + 1
    {
      t := clock;
      clock := clock + 1;
    }

    /** `Message(user=..., date_posted=timezone.now(), text=...).save()`. */
    method SaveMessage(user: User, text: string) returns (m: Message)
      requires Valid()
      modifies this
      ensures Valid()
      ensures m == Message(user, old(clock), text)
      ensures messages == old(messages) + [m]
      ensures commands == old(commands) && nextUuid == old(nextUuid) && clock == old(clock) + 1
    {
      var now := Now();
      m := Message(user, now, text);
      messages := messages + [m];
    }

    /**
      `CommandMessage(date_posted=timezone.now(), request=..., user=...).save()`: a pending
      row under a uuid no existing row has.
     */
    method CreateCommand(request: CommandRequest, user: User) returns (rec: CommandRecord)
      requires Valid()
      modifies this
      ensures Valid()
      ensures rec == CommandRecord(old(nextUuid), old(clock), None, request, None, user)
      ensures IndexOf(old(commands), rec.uuid).None?
      ensures commands == old(commands) + [rec]
      ensures messages == old(messages) && clock == old(clock) + 1 && nextUuid == old(nextUuid) + 1
    {
      var now := Now();
      rec := CommandRecord(nextUuid, now, None, request, None, user);
      nextUuid := nextUuid + 1;
      commands := commands + [rec];
    }

    /**
      Sets `date_answered` to now and `response` to `text` on row `i`, whatever it held
      before, and writes no other column (`save(update_fields=['date_answered', 'response'])`).
     */
    method Answer(i: nat, text: ResponseText)
      requires Valid() && i < |commands|
      modifies this
      ensures Valid()
      ensures commands == old(commands)[i := old(commands)[i].(dateAnswered := Some(old(clock)), response := Some(text))]
      ensures messages == old(messages) && nextUuid == old(nextUuid) && clock == old(clock) + 1
    {
      var now := Now();
      var answered := commands[i].(dateAnswered := Some(now), response := Some(text));
      commands := commands[i := answered];
    }

    /** `CommandMessage.objects.filter(user=user, date_answered__isnull=False).delete()`. */
    method DeleteDelivered(user: User)
      requires Valid()
      modifies this`commands
      ensures Valid()
      ensures commands == Undelivered(old(commands), user)
    {
      FilterKeepsOrder(commands, r => !Deliverable(r, user), EarlierCommand);
      commands := Undelivered(commands, user);
    }
  }
}
