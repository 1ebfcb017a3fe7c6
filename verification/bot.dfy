/** The two chat handlers over the whole bot state: the in-memory session
    table `user_states`, shared by all users, and one database per user. */
module Bot {
  import opened Wrappers
  import opened Text
  import opened Environment
  import opened ProfileStore
  import opened Session
  import opened Messages

  type UserId = string

  datatype World = World(sessions: map<UserId, Step>, dbs: map<UserId, Db>)

  datatype Turn = Turn(world: World, reply: Reply)

  /** A user's database; one never created reads as empty, which is what
      `init_db` creates. */
  function DbOf(w: World, user: UserId): Db {
    if user in w.dbs then w.dbs[user] else EmptyDb
  }

  /** A user's step, `None` when `user_states` has no entry. */
  function StepOf(w: World, user: UserId): Option<Step> {
    if user in w.sessions then Some(w.sessions[user]) else None
  }

  /** Stores the next step, or deletes the user's entry when there is none. */
  function Resume(sessions: map<UserId, Step>, user: UserId, next: Option<Step>): (s: map<UserId, Step>)
    ensures user in s <==> next.Some?
    ensures next.Some? ==> s[user] == next.value
    ensures forall u | u != user :: (u in s <==> u in sessions)
    ensures forall u | u in s && u != user :: s[u] == sessions[u]
  {
    match next
    case Some(step) => sessions[user := step]
    case None => sessions - {user}
  }

  const Exit: string := "退出"

  /** Every open session is one the chat can reach from an idle user. */
  predicate Reachable(w: World) {
    forall u | u in w.sessions :: EntryReachable(w.sessions[u])
  }

  /** Every stored birthday parses, and every cached pet carries one that does. */
  predicate Valid(env: Env, w: World) {
    && (forall u | u in w.dbs :: BirthdaysValid(env, w.dbs[u]))
    && (forall u | u in w.sessions :: StepValid(env, w.sessions[u]))
  }

  /** The text turn of one user, before it is written back: `退出` ends any
      session first, a user with a session gets the step's transition, and
      an idle user the command routing. */
  function UserTurn(env: Env, step: Option<Step>, db: Db, user: UserId, input: string): (r: Outcome)
    ensures input == Exit ==> r == Outcome(None, db, Say(Welcome))
    ensures input != Exit && step.Some? ==> r == StepTurn(env, step.value, db, input)
    ensures input != Exit && step.None? ==> r == IdleTurn(env, db, user, input)
    ensures input != Exit && step.None? ==>
      && r.db == db
      && (r.next.Some? <==> input in EntryCommands)
      && (r.next.Some? ==> r.next.value == EntryCommands[input])
    ensures r.db != db ==>
      step.Some? && IsYes(input) && (step.value.AwaitingSaveConfirmation? || step.value.AwaitingRecordConfirmation?)
    ensures r.db.pets != db.pets ==> step.Some? && step.value.AwaitingSaveConfirmation?
    ensures (step.Some? ==> EntryReachable(step.value)) && r.next.Some? ==> EntryReachable(r.next.value)
    ensures BirthdaysValid(env, db) && (step.Some? ==> StepValid(env, step.value)) ==>
      BirthdaysValid(env, r.db) && (r.next.Some? ==> StepValid(env, r.next.value))
  {
    if input == Exit then Outcome(None, db, Say(Welcome))
    else match step
      case Some(s) =>
        StepTurnKeeps(env, s, db, input);
        StepTurn(env, s, db, input)
      case None => IdleTurn(env, db, user, input)
  }

  /** Writes a user's next step and database back into the world. */
  function Commit(env: Env, w: World, user: UserId, next: Option<Step>, db: Db): (r: World)
    ensures StepOf(r, user) == next && DbOf(r, user) == db && user in r.dbs
    ensures forall u | u != user :: StepOf(r, u) == StepOf(w, u) && DbOf(r, u) == DbOf(w, u)
    ensures Reachable(w) && (next.Some? ==> EntryReachable(next.value)) ==> Reachable(r)
    ensures Valid(env, w) && BirthdaysValid(env, db) && (next.Some? ==> StepValid(env, next.value)) ==> Valid(env, r)
  {
    World(Resume(w.sessions, user, next), w.dbs[user := db])
  }

  /** `handle_text_message`: the message is stripped and the user's
      database created if missing; then the user's turn. Other users'
      sessions and databases are untouched. */
  function HandleText(env: Env, w: World, user: UserId, message: string): (r: Turn)
    ensures user in r.world.dbs
    ensures forall u | u != user :: StepOf(r.world, u) == StepOf(w, u) && DbOf(r.world, u) == DbOf(w, u)
    ensures Strip(message) == Exit ==>
      StepOf(r.world, user).None? && DbOf(r.world, user) == DbOf(w, user) && r.reply == Say(Welcome)
    ensures Strip(message) != Exit && StepOf(w, user).None? ==>
      && DbOf(r.world, user) == DbOf(w, user)
      && (StepOf(r.world, user).Some? <==> Strip(message) in EntryCommands)
      && (StepOf(r.world, user).Some? ==> StepOf(r.world, user).value == EntryCommands[Strip(message)])
      && StepOf(r.world, user) == IdleTurn(env, DbOf(w, user), user, Strip(message)).next
      && r.reply == IdleTurn(env, DbOf(w, user), user, Strip(message)).reply
    ensures Strip(message) != Exit && StepOf(w, user).Some? ==>
      var o := StepTurn(env, StepOf(w, user).value, DbOf(w, user), Strip(message));
      StepOf(r.world, user) == o.next && DbOf(r.world, user) == o.db && r.reply == o.reply
    ensures DbOf(r.world, user) != DbOf(w, user) ==>
      && StepOf(w, user).Some? && IsYes(Strip(message))
      && (StepOf(w, user).value.AwaitingSaveConfirmation? || StepOf(w, user).value.AwaitingRecordConfirmation?)
    ensures DbOf(r.world, user).pets != DbOf(w, user).pets ==>
      StepOf(w, user).Some? && StepOf(w, user).value.AwaitingSaveConfirmation?
    ensures Reachable(w) ==> Reachable(r.world)
    ensures Valid(env, w) ==> Valid(env, r.world)
  {
    var input := Strip(message);
    var outcome := UserTurn(env, StepOf(w, user), DbOf(w, user), user, input);
    var after := Commit(env, w, user, outcome.next, outcome.db);
    assert StepOf(after, user) == outcome.next && DbOf(after, user) == outcome.db;
    Turn(after, outcome.reply)
  }

  /** `handle_image_message`: never writes a database and touches no other
      user's session; only a package photo can open a step, the gram
      question. */
  function HandleImage(env: Env, w: World, user: UserId, img: ImageInput): (r: Turn)
    ensures r.world.dbs == w.dbs
    ensures forall u | u != user :: StepOf(r.world, u) == StepOf(w, u)
    ensures var o := ImageTurn(env, StepOf(w, user), img);
      StepOf(r.world, user) == o.next && r.reply == o.reply
    ensures StepOf(r.world, user) != StepOf(w, user) ==>
      || (StepOf(w, user) == Some(AwaitingPackageImage)
          && StepOf(r.world, user).Some? && StepOf(r.world, user).value.AwaitingFeedingWeight?)
      || (StepOf(w, user) == Some(AwaitingFreshFoodImage) && StepOf(r.world, user).None?)
    ensures Reachable(w) ==> Reachable(r.world)
    ensures Valid(env, w) ==> Valid(env, r.world)
  {
    var outcome := ImageTurn(env, StepOf(w, user), img);
    var r := Turn(World(Resume(w.sessions, user, outcome.next), w.dbs), outcome.reply);
    assert StepOf(r.world, user) == outcome.next;
    r
  }

  // ---------------------------------------------------------------------
  // Runs of events.
  // ---------------------------------------------------------------------

  /** A message event delivered to the bot. */
  datatype Event =
    | TextEvent(user: UserId, message: string)
    | ImageEvent(user: UserId, img: ImageInput)

  /** Dispatches an event to its handler. */
  function Deliver(env: Env, w: World, e: Event): (r: Turn)
    ensures e.TextEvent? ==> r == HandleText(env, w, e.user, e.message)
    ensures e.ImageEvent? ==> r == HandleImage(env, w, e.user, e.img)
    ensures forall u | u != e.user :: StepOf(r.world, u) == StepOf(w, u) && DbOf(r.world, u) == DbOf(w, u)
    ensures Reachable(w) ==> Reachable(r.world)
    ensures Valid(env, w) ==> Valid(env, r.world)
    ensures DbOf(r.world, e.user).pets != DbOf(w, e.user).pets ==>
      StepOf(w, e.user).Some? && StepOf(w, e.user).value.AwaitingSaveConfirmation?
  {
    match e
    case TextEvent(user, message) => HandleText(env, w, user, message)
    case ImageEvent(user, img) => HandleImage(env, w, user, img)
  }

  /** An event together with the environment it is handled in: the clock,
      the place searches and the public URL may differ from one event to
      the next. */
  datatype Arrival = Arrival(env: Env, event: Event)

  /** The world after the events, in order. */
  function Run(w: World, arrivals: seq<Arrival>): World
    decreases |arrivals|
  {
    if |arrivals| == 0 then w
    else Run(Deliver(arrivals[0].env, w, arrivals[0].event).world, arrivals[1..])
  }

  /** Two environments that accept the same dates. Only `validDate` enters
      `Valid`, so the invariant carries over between them. */
  ghost predicate SameDates(a: Env, b: Env) {
    forall s :: a.validDate(s) == b.validDate(s)
  }

  lemma ValidAcross(a: Env, b: Env, w: World)
    requires SameDates(a, b) && Valid(a, w)
    ensures Valid(b, w)
  {
    forall u | u in w.dbs
      ensures BirthdaysValid(b, w.dbs[u])
    {
      forall n | n in w.dbs[u].pets
        ensures b.validDate(w.dbs[u].pets[n].birthday)
      {
        assert a.validDate(w.dbs[u].pets[n].birthday);
      }
    }
    forall u | u in w.sessions
      ensures StepValid(b, w.sessions[u])
    {
      if w.sessions[u].AwaitingSaveConfirmation? {
        assert a.validDate(w.sessions[u].pet.birthday);
      }
    }
  }

  /** The bot starts with no sessions and no databases. */
  const Initial: World := World(map[], map[])

  lemma InitialInvariants(env: Env)
    ensures Reachable(Initial) && Valid(env, Initial)
    ensures forall u :: StepOf(Initial, u).None? && DbOf(Initial, u) == EmptyDb
  {
  }

  /** No run of events opens a pet-info step in a world that has none: no
      idle command leads to `awaiting_dog_info`, `awaiting_dog_name` or the
      pet confirmation. */
  lemma {:induction false} RunKeepsReachable(w: World, arrivals: seq<Arrival>)
    requires Reachable(w)
    ensures Reachable(Run(w, arrivals))
    decreases |arrivals|
  {
    if |arrivals| > 0 {
      RunKeepsReachable(Deliver(arrivals[0].env, w, arrivals[0].event).world, arrivals[1..]);
    }
  }

  /** Every stored and every cached birthday stays a valid date, however the
      clock and the other collaborators change between events, as long as
      the date parser does not. */
  lemma {:induction false} RunKeepsValid(env: Env, w: World, arrivals: seq<Arrival>)
    requires Valid(env, w)
    requires forall k | 0 <= k < |arrivals| :: SameDates(arrivals[k].env, env)
    ensures Valid(env, Run(w, arrivals))
    decreases |arrivals|
  {
    if |arrivals| > 0 {
      var a := arrivals[0];
      ValidAcross(env, a.env, w);
      var next := Deliver(a.env, w, a.event).world;
      ValidAcross(a.env, env, next);
      RunKeepsValid(env, next, arrivals[1..]);
    }
  }

  /** Hence the chat alone never adds, changes or removes a pet: in a world
      the chat can reach, pets come only from the web forms. */
  lemma {:induction false} ChatNeverWritesPets(w: World, arrivals: seq<Arrival>, u: UserId)
    requires Reachable(w)
    ensures DbOf(Run(w, arrivals), u).pets == DbOf(w, u).pets
    decreases |arrivals|
  {
    if |arrivals| > 0 {
      var next := Deliver(arrivals[0].env, w, arrivals[0].event).world;
      assert DbOf(next, u).pets == DbOf(w, u).pets;
      ChatNeverWritesPets(next, arrivals[1..], u);
    }
  }

  /** Events of other users never touch a user's session or database. */
  lemma {:induction false} RunIsolatesUsers(w: World, arrivals: seq<Arrival>, u: UserId)
    requires forall k | 0 <= k < |arrivals| :: arrivals[k].event.user != u
    ensures StepOf(Run(w, arrivals), u) == StepOf(w, u)
    ensures DbOf(Run(w, arrivals), u) == DbOf(w, u)
    decreases |arrivals|
  {
    if |arrivals| > 0 {
      RunIsolatesUsers(Deliver(arrivals[0].env, w, arrivals[0].event).world, arrivals[1..], u);
    }
  }
}
