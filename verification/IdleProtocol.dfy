/**
 The "idle" notification protocol: any number of threads raise flags and wake the main
 loop through a self-pipe, and the main loop passes the flags on to waiting clients.
 One step is one section of code under a lock, one system call, or one piece of work
 that only the main thread does.
 */
module IdleProtocol {
  import opened Basics

  /** One bit of an idle mask. */
  type Flag = nat

  /** A number of `enum pipe_event`. */
  type Event = nat

  /** `PIPE_EVENT_IDLE` */
  const IDLE: Event := 2

  /** Where a thread is in `event_pipe_emit()`. */
  datatype Emitter =
    | AtPipe(event: Event)  // about to take the pipe mutex
    | AtWrite               // has set its event, about to write to the pipe

  /** Where the main thread is in `main_notify_event()`. */
  datatype Main =
    | Waiting
    | Drained                                          // has read from the pipe
    | Handling(events: set<Event>)                     // events copied, handlers left to call
    | Delivering(flags: set<Flag>, rest: set<Event>)  // between idle_get() and the clients

  /** `reports` lists what the client has been told. */
  datatype Client = Client(
    flags: set<Flag>,
    waiting: bool,
    subscriptions: set<Flag>,
    expired: bool,
    reports: seq<set<Flag>>)

  datatype State = State(
    idleFlags: set<Flag>,
    pipeEvents: set<Event>,
    pipe: nat,
    emitters: map<nat, Emitter>,
    main: Main,
    clients: map<nat, Client>)

  // ---- the clients ----

  /** `client_idle_notify()` */
  function Notified(c: Client): Client {
    c.(flags := {}, waiting := false, reports := c.reports + [c.flags * c.subscriptions])
  }

  /** `client_idle_add()` */
  function WithFlags(c: Client, flags: set<Flag>): Client {
    if c.expired then c
    else
      var c' := c.(flags := c.flags + flags);
      if c'.waiting && c'.flags * c'.subscriptions != {} then Notified(c') else c'
  }

  /** `client_idle_wait()` */
  function Wait(c: Client, subscriptions: set<Flag>): Client {
    var c' := c.(waiting := true, subscriptions := subscriptions);
    if c'.flags * c'.subscriptions != {} then Notified(c') else c'
  }

  // ---- the steps ----

  datatype Step =
    | IdleAdd(thread: nat, flags: set<Flag>)  // idle_add() up to event_pipe_emit()
    | Emit(thread: nat, event: Event)         // event_pipe_emit() for any event
    | SetEvent(thread: nat)                   // the section under the pipe mutex
    | WriteByte(thread: nat)                  // write(), which fails when the pipe is full
    | ReadPipe(bytes: nat)
    | TakeEvents
    | CallHandler(event: Event)               // a handler other than that of the idle event
    | TakeFlags                               // idle_get()
    | NotifyClients(failed: set<nat>)         // client_manager_idle_add(); writing to some clients fails
    | Return
    | ClientWaits(client: nat, subscriptions: set<Flag>)
    | ClientCancels(client: nat)              // the command "noidle"
    | Push(client: nat, flags: set<Flag>)     // client_push_message()
    | Expire(client: nat)                     // writing to the client fails
    | Connect(client: nat)
    | Disconnect(client: nat)

  predicate Enabled(s: State, step: Step) {
    match step
    case IdleAdd(t, flags) => t !in s.emitters && flags != {}
    case Emit(t, _) => t !in s.emitters
    case SetEvent(t) => t in s.emitters && s.emitters[t].AtPipe?
    case WriteByte(t) => t in s.emitters && s.emitters[t].AtWrite?
    case ReadPipe(n) => s.main.Waiting? && 1 <= n <= s.pipe && n <= 256
    case TakeEvents => s.main.Drained?
    case CallHandler(e) => s.main.Handling? && e in s.main.events && e != IDLE
    case TakeFlags => s.main.Handling? && IDLE in s.main.events
    case NotifyClients(_) => s.main.Delivering?
    case Return => s.main == Handling({})
    case ClientWaits(c, _) =>
      s.main.Waiting? && c in s.clients && !s.clients[c].expired && !s.clients[c].waiting
    case ClientCancels(c) => s.main.Waiting? && c in s.clients && s.clients[c].waiting
    case Push(c, _) => s.main.Waiting? && c in s.clients
    case Expire(c) => s.main.Waiting? && c in s.clients
    case Connect(c) => s.main.Waiting? && c !in s.clients
    case Disconnect(c) => s.main.Waiting? && c in s.clients
  }

  function Next(s: State, capacity: nat, step: Step): State
    requires Enabled(s, step)
  {
    match step
    case IdleAdd(t, flags) =>
      s.(idleFlags := s.idleFlags + flags, emitters := s.emitters[t := AtPipe(IDLE)])
    case Emit(t, e) => s.(emitters := s.emitters[t := AtPipe(e)])
    case SetEvent(t) =>
      var e := s.emitters[t].event;
      if e in s.pipeEvents then s.(emitters := s.emitters - {t})
      else s.(pipeEvents := s.pipeEvents + {e}, emitters := s.emitters[t := AtWrite])
    case WriteByte(t) =>
      s.(pipe := if s.pipe < capacity then s.pipe + 1 else s.pipe, emitters := s.emitters - {t})
    case ReadPipe(n) => s.(pipe := s.pipe - n, main := Drained)
    case TakeEvents => s.(main := Handling(s.pipeEvents), pipeEvents := {})
    case CallHandler(e) => s.(main := Handling(s.main.events - {e}))
    case TakeFlags =>
      s.(main := Delivering(s.idleFlags, s.main.events - {IDLE}), idleFlags := {})
    case NotifyClients(failed) =>
      s.(main := Handling(s.main.rest),
         clients := map c | c in s.clients ::
           var k := if s.main.flags != {} then WithFlags(s.clients[c], s.main.flags) else s.clients[c];
           if c in failed then k.(expired := true) else k)
    case Return => s.(main := Waiting)
    case ClientWaits(c, subscriptions) =>
      s.(clients := s.clients[c := Wait(s.clients[c], subscriptions)])
    case ClientCancels(c) => s.(clients := s.clients[c := s.clients[c].(waiting := false)])
    case Push(c, flags) => s.(clients := s.clients[c := WithFlags(s.clients[c], flags)])
    case Expire(c) => s.(clients := s.clients[c := s.clients[c].(expired := true)])
    case Connect(c) => s.(clients := s.clients[c := Client({}, false, {}, false, [])])
    case Disconnect(c) => s.(clients := s.clients - {c})
  }

  const INITIAL: State := State({}, {}, 0, map[], Waiting, map[])

  // ---- the invariant ----

  /** A set event is always on its way to the main thread. */
  ghost predicate WakeUpComing(s: State) {
    s.pipeEvents != {} ==>
      s.pipe > 0 || s.main.Drained? || exists t :: t in s.emitters && s.emitters[t].AtWrite?
  }

  /** Raised flags are always on their way to `idle_get()`. */
  ghost predicate FlagsComing(s: State) {
    s.idleFlags != {} ==>
      || IDLE in s.pipeEvents
      || (s.main.Handling? && IDLE in s.main.events)
      || exists t :: t in s.emitters && s.emitters[t] == AtPipe(IDLE)
  }

  /** A client waits only while nothing that it has subscribed to has come. */
  predicate Settled(c: Client) {
    c.expired || !c.waiting || c.flags * c.subscriptions == {}
  }

  ghost predicate Inv(s: State) {
    && WakeUpComing(s)
    && FlagsComing(s)
    && forall c :: c in s.clients ==> Settled(s.clients[c])
  }

  // ---- the invariant holds in every run ----

  lemma WakeUpKept(s: State, capacity: nat, step: Step)
    requires capacity > 0 && Inv(s) && Enabled(s, step)
    ensures WakeUpComing(Next(s, capacity, step))
  {
    var s' := Next(s, capacity, step);
    if step.SetEvent? {
      var t := step.thread;
      if s.emitters[t].event !in s.pipeEvents {
        assert s'.emitters[t].AtWrite?;
      } else if s.pipe == 0 && !s.main.Drained? {
        var u :| u in s.emitters && s.emitters[u].AtWrite?;
        assert s'.emitters[u].AtWrite?;
      }
    } else if s'.pipeEvents != {} && s'.pipe == 0 && !s'.main.Drained? {
      var u :| u in s.emitters && s.emitters[u].AtWrite?;
      assert u in s'.emitters && s'.emitters[u].AtWrite?;
    }
  }

  lemma FlagsKept(s: State, capacity: nat, step: Step)
    requires Inv(s) && Enabled(s, step)
    ensures FlagsComing(Next(s, capacity, step))
  {
    var s' := Next(s, capacity, step);
    if s'.idleFlags != {} && step != TakeFlags {
      if step.IdleAdd? {
        assert s'.emitters[step.thread] == AtPipe(IDLE);
      } else if IDLE !in s.pipeEvents && !(s.main.Handling? && IDLE in s.main.events) {
        var u :| u in s.emitters && s.emitters[u] == AtPipe(IDLE);
        assert step == SetEvent(u) || (u in s'.emitters && s'.emitters[u] == AtPipe(IDLE));
      }
    }
  }

  lemma StepKeepsInv(s: State, capacity: nat, step: Step)
    requires capacity > 0 && Inv(s) && Enabled(s, step)
    ensures Inv(Next(s, capacity, step))
  {
    WakeUpKept(s, capacity, step);
    FlagsKept(s, capacity, step);
  }

  /** `s` is reached from the initial state by the steps `run`. */
  ghost predicate Reaches(capacity: nat, run: seq<Step>, s: State) {
    if run == [] then s == INITIAL
    else
      var n := |run| - 1;
      exists before :: Reaches(capacity, run[..n], before) && Leads(before, capacity, run[n], s)
  }

  ghost predicate Leads(s: State, capacity: nat, step: Step, s': State) {
    Enabled(s, step) && s' == Next(s, capacity, step)
  }

  lemma {:induction false} ReachableInv(capacity: nat, run: seq<Step>, s: State)
    requires capacity > 0 && Reaches(capacity, run, s)
    ensures Inv(s)
    decreases |run|
  {
    if run != [] {
      var n := |run| - 1;
      var before :| Reaches(capacity, run[..n], before) && Leads(before, capacity, run[n], s);
      ReachableInv(capacity, run[..n], before);
      StepKeepsInv(before, capacity, run[n]);
    }
  }

  // ---- what a client is owed, read off the run alone ----

  /** The flags raised and not taken by `idle_get()`, and those taken and not given to the clients. */
  datatype Transit = Transit(untaken: set<Flag>, undelivered: set<Flag>)

  function Moved(t: Transit, step: Step): Transit {
    match step
    case IdleAdd(_, flags) => t.(untaken := t.untaken + flags)
    case TakeFlags => Transit({}, t.undelivered + t.untaken)
    case NotifyClients(_) => t.(undelivered := {})
    case _ => t
  }

  ghost function TransitOf(run: seq<Step>): Transit {
    if run == [] then Transit({}, {})
    else
      var n := |run| - 1;
      Moved(TransitOf(run[..n]), run[n])
  }

  /** What a client has not been told yet, what it waits for, and what it has been told. */
  datatype Account = Account(due: set<Flag>, waitsFor: Option<set<Flag>>, told: seq<set<Flag>>)

  /** A client is told what is due of the things that it waits for, and then waits no more. */
  function Answered(a: Account): Account {
    if a.waitsFor.Some? && a.due * a.waitsFor.value != {}
    then Account({}, None, a.told + [a.due * a.waitsFor.value])
    else a
  }

  /** The account of client `c` after a step before which the flags `batch` were to be delivered. */
  function Charged(a: Account, step: Step, c: nat, batch: set<Flag>): Account {
    match step
    case NotifyClients(_) => Answered(a.(due := a.due + batch))
    case Push(c', flags) => if c' == c then Answered(a.(due := a.due + flags)) else a
    case ClientWaits(c', subscriptions) => if c' == c then Answered(a.(waitsFor := Some(subscriptions))) else a
    case ClientCancels(c') => if c' == c then a.(waitsFor := None) else a
    case Connect(c') => if c' == c then Account({}, None, []) else a
    case _ => a
  }

  /** What client `c` is owed, as long as it has not expired. */
  ghost function AccountOf(run: seq<Step>, c: nat): Account {
    if run == [] then Account({}, None, [])
    else
      var n := |run| - 1;
      Charged(AccountOf(run[..n], c), run[n], c, TransitOf(run[..n]).undelivered)
  }

  /** The client is as its account says. */
  predicate Matches(k: Client, a: Account) {
    k.expired ||
    (&& k.flags == a.due && k.reports == a.told
     && k.waiting == a.waitsFor.Some? && (k.waiting ==> k.subscriptions == a.waitsFor.value))
  }

  /** The flags under way to the clients are those raised and not delivered. */
  predicate UnderWay(t: Transit, s: State) {
    s.idleFlags == t.untaken && t.undelivered == if s.main.Delivering? then s.main.flags else {}
  }

  /**
   In every run, a client that is connected has been told exactly what its account says: in
   particular it waits, for the flags that it asked for, from `client_idle_wait()` until it is
   told something or cancels.
   */
  lemma {:induction false} AccountsKept(capacity: nat, run: seq<Step>, s: State)
    requires capacity > 0 && Reaches(capacity, run, s)
    ensures UnderWay(TransitOf(run), s)
    ensures forall c :: c in s.clients ==> Matches(s.clients[c], AccountOf(run, c))
    decreases |run|
  {
    hide Leads, Inv, UnderWay, Matches, Charged, Moved;
    if run == [] {
      NothingUnderWay();
    } else {
      var n := |run| - 1;
      var before :| Reaches(capacity, run[..n], before) && Leads(before, capacity, run[n], s);
      AccountsKept(capacity, run[..n], before);
      ReachableInv(capacity, run[..n], before);
      TransitKept(capacity, before, run[n], s, TransitOf(run[..n]));
      forall c | c in s.clients
        ensures Matches(s.clients[c], AccountOf(run, c))
      {
        AccountKept(capacity, before, run[n], s, c, AccountOf(run[..n], c), TransitOf(run[..n]));
      }
    }
  }

  lemma NothingUnderWay()
    ensures UnderWay(Transit({}, {}), INITIAL)
  {
  }

  lemma TransitKept(capacity: nat, s: State, step: Step, s': State, t: Transit)
    requires Leads(s, capacity, step, s') && UnderWay(t, s)
    ensures UnderWay(Moved(t, step), s')
  {
    assert {} + t.untaken == t.untaken;
  }

  lemma AccountKept(capacity: nat, s: State, step: Step, s': State, c: nat, a: Account, t: Transit)
    requires Leads(s, capacity, step, s') && Inv(s) && UnderWay(t, s) && c in s'.clients
    requires c in s.clients ==> Matches(s.clients[c], a)
    ensures Matches(s'.clients[c], Charged(a, step, c, t.undelivered))
  {
    hide WakeUpComing, FlagsComing;
    if step.NotifyClients? {
      assert a.due + {} == a.due;
    }
  }

  // ---- no notification is lost ----

  /** No thread is in the middle of something, and nothing is left to wake the main loop. */
  predicate Quiet(s: State) {
    s.emitters == map[] && s.main.Waiting? && s.pipe == 0
  }

  /**
   However the steps of all threads interleave: once everything is quiet, all flags ever
   raised have been given to the clients; every connected client holds exactly the flags
   given or pushed to it since it was last told something; and whatever it waits for is not
   among them.
   */
  lemma NoNotificationLost(capacity: nat, run: seq<Step>, s: State)
    requires capacity > 0 && Reaches(capacity, run, s) && Quiet(s)
    ensures s.idleFlags == {} && s.pipeEvents == {} && TransitOf(run) == Transit({}, {})
    ensures forall c :: c in s.clients && !s.clients[c].expired ==>
              var a := AccountOf(run, c);
              && s.clients[c].flags == a.due && s.clients[c].waiting == a.waitsFor.Some?
              && (a.waitsFor.Some? ==> a.waitsFor.value * a.due == {})
  {
    ReachableInv(capacity, run, s);
    AccountsKept(capacity, run, s);
    hide Reaches, AccountOf, TransitOf;
    forall c | c in s.clients && !s.clients[c].expired
      ensures Matches(s.clients[c], AccountOf(run, c)) && Settled(s.clients[c])
    {
    }
  }

  /** What client `c` waits for in the step, and what it is given in it. */
  function WaitsForIn(a: Account, step: Step, c: nat): Option<set<Flag>> {
    if step.ClientWaits? && step.client == c then Some(step.subscriptions) else a.waitsFor
  }

  function GivenBy(t: Transit, step: Step, c: nat): set<Flag> {
    if step.Push? && step.client == c then step.flags
    else if step.NotifyClients? then t.undelivered else {}
  }

  /**
   In every step of every run, a client is told something exactly if it waits and flags that
   it has subscribed to are due, and then it is told exactly these flags.
   */
  lemma ReportIsExact(capacity: nat, run: seq<Step>, s: State, step: Step, c: nat)
    requires capacity > 0 && Reaches(capacity, run, s) && Enabled(s, step)
    requires c in s.clients && !s.clients[c].expired && c in Next(s, capacity, step).clients
    ensures var due := AccountOf(run, c).due + GivenBy(TransitOf(run), step, c);
            var waitsFor := WaitsForIn(AccountOf(run, c), step, c);
            Next(s, capacity, step).clients[c].reports ==
              s.clients[c].reports +
              if waitsFor.Some? && due * waitsFor.value != {} then [due * waitsFor.value] else []
  {
    ReachableInv(capacity, run, s);
    AccountsKept(capacity, run, s);
    hide Reaches, AccountOf, TransitOf, Inv, UnderWay, Matches, Enabled, Next;
    StepReports(capacity, s, step, c, AccountOf(run, c), TransitOf(run));
  }

  lemma StepReports(capacity: nat, s: State, step: Step, c: nat, a: Account, t: Transit)
    requires Enabled(s, step) && Inv(s) && UnderWay(t, s)
    requires c in s.clients && !s.clients[c].expired && c in Next(s, capacity, step).clients
    requires Matches(s.clients[c], a)
    ensures var due := a.due + GivenBy(t, step, c);
            var waitsFor := WaitsForIn(a, step, c);
            Next(s, capacity, step).clients[c].reports ==
              s.clients[c].reports +
              if waitsFor.Some? && due * waitsFor.value != {} then [due * waitsFor.value] else []
  {
    hide WakeUpComing, FlagsComing;
    assert a.due + {} == a.due;
  }

  /** A client that has expired is told nothing more and stays so, until it is disconnected. */
  lemma ExpiredIsSilent(s: State, capacity: nat, step: Step, c: nat)
    requires Enabled(s, step) && c in s.clients && s.clients[c].expired && c in Next(s, capacity, step).clients
    ensures var k := Next(s, capacity, step).clients[c];
            k.expired && k.reports == s.clients[c].reports && k.flags == s.clients[c].flags
  {
  }

  /** A client that starts to wait is registered with what it asks for, unless it is told something at once. */
  lemma WaitRegisters(s: State, capacity: nat, c: nat, subscriptions: set<Flag>)
    requires Enabled(s, ClientWaits(c, subscriptions))
    ensures var k, k' := s.clients[c], Next(s, capacity, ClientWaits(c, subscriptions)).clients[c];
            if k.flags * subscriptions == {}
            then k'.waiting && k'.subscriptions == subscriptions && k'.flags == k.flags && k'.reports == k.reports
            else !k'.waiting && k'.flags == {} && k'.reports == k.reports + [k.flags * subscriptions]
  {
  }

  // ---- what a client that waits gets ----

  /** The flags that the step raises, or pushes to client `c`. */
  function RaisedBy(step: Step, c: nat): set<Flag> {
    match step
    case IdleAdd(_, flags) => flags
    case Push(c', flags) => if c' == c then flags else {}
    case _ => {}
  }

  ghost function RaisedFor(part: seq<Step>, c: nat): set<Flag> {
    if part == [] then {} else RaisedFor(part[..|part| - 1], c) + RaisedBy(part[|part| - 1], c)
  }

  /** The client does not start to wait, cancel or connect. */
  predicate NotBy(step: Step, c: nat) {
    !((step.ClientWaits? || step.ClientCancels? || step.Connect?) && step.client == c)
  }

  ghost predicate OnlyWaits(part: seq<Step>, c: nat) {
    forall i :: 0 <= i < |part| ==> NotBy(part[i], c)
  }

  /** Everything that may still be told to the client. */
  function Owed(a: Account, t: Transit): set<Flag> {
    a.due + t.undelivered + t.untaken
  }

  /** How the account of a client that asked for `subscriptions` develops while it only waits. */
  predicate Develops(a: Account, t: Transit, told: seq<set<Flag>>, subscriptions: set<Flag>, all: set<Flag>) {
    if a.waitsFor.Some? then
      a.waitsFor.value == subscriptions && a.told == told && a.due * subscriptions == {} && all == Owed(a, t)
    else
      |a.told| == |told| + 1 && a.told[..|told|] == told && {} < a.told[|told|] <= subscriptions * all
  }

  lemma {:induction false} WaitDevelops(before: seq<Step>, c: nat, subscriptions: set<Flag>, after: seq<Step>)
    requires OnlyWaits(after, c)
    ensures var a := AccountOf(before, c);
            var run := before + [ClientWaits(c, subscriptions)] + after;
            Develops(AccountOf(run, c), TransitOf(run), a.told, subscriptions,
                     Owed(a, TransitOf(before)) + RaisedFor(after, c))
    decreases |after|
  {
    hide Develops, Charged, Moved, Owed, RaisedBy;
    var a, t, wait := AccountOf(before, c), TransitOf(before), ClientWaits(c, subscriptions);
    var run := before + [wait] + after;
    if after == [] {
      assert run == before + [wait] && run[..|run| - 1] == before;
      WaitBegins(a, t, c, subscriptions);
      assert Owed(a, t) + {} == Owed(a, t);
    } else {
      var n := |after| - 1;
      WaitDevelops(before, c, subscriptions, after[..n]);
      var run' := before + [wait] + after[..n];
      assert run[..|run| - 1] == run' && run[|run| - 1] == after[n];
      var all := Owed(a, t) + RaisedFor(after[..n], c);
      DevelopsOn(AccountOf(run', c), TransitOf(run'), c, a.told, subscriptions, all, after[n]);
      assert Owed(a, t) + RaisedFor(after, c) == all + RaisedBy(after[n], c);
    }
  }

  lemma WaitBegins(a: Account, t: Transit, c: nat, subscriptions: set<Flag>)
    ensures var wait := ClientWaits(c, subscriptions);
            Develops(Charged(a, wait, c, t.undelivered), Moved(t, wait), a.told, subscriptions, Owed(a, t))
  {
  }

  lemma DevelopsOn(a: Account, t: Transit, c: nat, told: seq<set<Flag>>, subscriptions: set<Flag>,
                   all: set<Flag>, step: Step)
    requires Develops(a, t, told, subscriptions, all) && NotBy(step, c)
    ensures Develops(Charged(a, step, c, t.undelivered), Moved(t, step), told, subscriptions,
                     all + RaisedBy(step, c))
  {
  }

  /**
   A client that asks for some flags and then only waits gets exactly one answer, which names
   some of these flags, if any of them has been raised, or pushed to it, since it was last
   told something, whenever that was and however the threads interleave; and no answer
   otherwise.
   */
  lemma IdleIsAnswered(capacity: nat, before: seq<Step>, c: nat, subscriptions: set<Flag>, after: seq<Step>, s: State)
    requires capacity > 0 && OnlyWaits(after, c)
    requires Reaches(capacity, before + [ClientWaits(c, subscriptions)] + after, s) && Quiet(s)
    requires c in s.clients && !s.clients[c].expired
    ensures var a, k := AccountOf(before, c), s.clients[c];
            var all := Owed(a, TransitOf(before)) + RaisedFor(after, c);
            && (all * subscriptions == {} ==>
                  k.reports == a.told && k.waiting && k.subscriptions == subscriptions && k.flags == all)
            && (all * subscriptions != {} ==>
                  exists report :: k.reports == a.told + [report] && {} < report <= all * subscriptions)
  {
    hide AccountOf, TransitOf, RaisedFor, Reaches;
    var run := before + [ClientWaits(c, subscriptions)] + after;
    WaitDevelops(before, c, subscriptions, after);
    NoNotificationLost(capacity, run, s);
    AccountsKept(capacity, run, s);
  }

  // ---- everything becomes quiet ----

  /** A step by which a call in progress or the main loop goes on. */
  predicate Internal(step: Step) {
    step.SetEvent? || step.WriteByte? || step.ReadPipe? || step.TakeEvents? || step.CallHandler?
    || step.TakeFlags? || step.NotifyClients? || step.Return?
  }

  ghost function AtPipes(s: State): set<nat> {
    set t | t in s.emitters && s.emitters[t].AtPipe?
  }

  ghost function AtWrites(s: State): set<nat> {
    set t | t in s.emitters && s.emitters[t].AtWrite?
  }

  /** The work that is left for the main loop. */
  function Work(s: State): nat {
    3 * s.pipe + 2 * |s.pipeEvents| +
    match s.main
    case Waiting => 0
    case Drained => 2
    case Handling(events) => 1 + 2 * |events|
    case Delivering(_, rest) => 2 + 2 * |rest|
  }

  /** Every internal step brings the system closer to being quiet, in whatever order they happen. */
  lemma {:induction false} InternalStepDecreases(s: State, capacity: nat, step: Step)
    requires Enabled(s, step) && Internal(step)
    ensures var s' := Next(s, capacity, step);
            || |AtPipes(s')| < |AtPipes(s)|
            || (AtPipes(s') == AtPipes(s) && |AtWrites(s')| < |AtWrites(s)|)
            || (AtPipes(s') == AtPipes(s) && AtWrites(s') == AtWrites(s) && Work(s') < Work(s))
    ensures Next(s, capacity, step).idleFlags <= s.idleFlags
  {
    var s' := Next(s, capacity, step);
    match step
    case SetEvent(t) =>
      assert AtPipes(s') == AtPipes(s) - {t};
    case WriteByte(t) =>
      assert AtPipes(s') == AtPipes(s);
      assert AtWrites(s') == AtWrites(s) - {t};
    case _ => MainStepDecreases(s, capacity, step);
  }

  lemma {:induction false} MainStepDecreases(s: State, capacity: nat, step: Step)
    requires Enabled(s, step) && Internal(step) && !step.SetEvent? && !step.WriteByte?
    ensures var s' := Next(s, capacity, step);
            s'.emitters == s.emitters && Work(s') < Work(s)
  {
    match step
    case CallHandler(e) => RemovedEvent(s.main.events, e);
    case TakeFlags => RemovedEvent(s.main.events, IDLE);
    case _ =>
  }

  lemma RemovedEvent(events: set<Event>, e: Event)
    requires e in events
    ensures |events - {e}| == |events| - 1
  {
  }

  /** As long as it is not quiet, some internal step is possible. */
  lemma InternalStepExists(s: State) returns (step: Step)
    requires !Quiet(s)
    ensures Internal(step) && Enabled(s, step)
  {
    if s.emitters != map[] {
      var t :| t in s.emitters;
      step := if s.emitters[t].AtPipe? then SetEvent(t) else WriteByte(t);
    } else {
      match s.main
      case Waiting => step := ReadPipe(1);
      case Drained => step := TakeEvents;
      case Handling(events) =>
        if events == {} {
          step := Return;
        } else {
          var e :| e in events;
          step := if e == IDLE then TakeFlags else CallHandler(e);
        }
      case Delivering(_, _) => step := NotifyClients({});
    }
  }

  lemma ReachesNext(capacity: nat, run: seq<Step>, s: State, step: Step)
    requires Reaches(capacity, run, s) && Enabled(s, step)
    ensures Reaches(capacity, run + [step], Next(s, capacity, step))
  {
    hide Enabled, Next;
    assert (run + [step])[..|run|] == run && Leads(s, capacity, step, Next(s, capacity, step));
  }

  /** From every reachable state, the calls in progress and the main loop reach a quiet state by themselves. */
  lemma {:induction false} BecomesQuiet(capacity: nat, run: seq<Step>, s: State)
    returns (more: seq<Step>, s': State)
    requires Reaches(capacity, run, s)
    ensures Reaches(capacity, run + more, s') && Quiet(s') && AllInternal(more)
    decreases |AtPipes(s)|, |AtWrites(s)|, Work(s)
  {
    hide Enabled, Next, Reaches, Quiet, Internal, AllInternal, AtPipes, AtWrites, Work;
    if Quiet(s) {
      more, s' := [], s;
      assert run + more == run;
      NoneInternal();
    } else {
      var step := InternalStepExists(s);
      InternalStepDecreases(s, capacity, step);
      ReachesNext(capacity, run, s, step);
      var rest;
      rest, s' := BecomesQuiet(capacity, run + [step], Next(s, capacity, step));
      more := [step] + rest;
      OneMoreInternal(step, rest);
      assert run + [step] + rest == run + more;
    }
  }

  ghost predicate AllInternal(run: seq<Step>) {
    forall i :: 0 <= i < |run| ==> Internal(run[i])
  }

  lemma NoneInternal()
    ensures AllInternal([])
  {
  }

  lemma OneMoreInternal(step: Step, rest: seq<Step>)
    requires Internal(step) && AllInternal(rest)
    ensures AllInternal([step] + rest)
  {
  }
}
