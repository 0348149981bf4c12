/** The life of an AES reservation: `aes_lock` tries environments in turn and records the reservation
    in the shared lock dictionary, the set-up loop repeats it once a minute, and `cleanup` releases it,
    possibly several times. Every server call may fail. */
module AesReservation {
  import opened Wrappers

  datatype Availability = Available | Reserved | Elsewhere

  /** An environment as listed by the server; `mine` says that its reservation is the user's own. */
  datatype Environment = Environment(state: Availability, mine: bool, resId: Option<nat>, hasLength: bool)

  datatype Settings = Settings(keepLock: bool, addsTime: bool)

  // ----- The server -----

  /** An enqueue that fails has reserved nothing; one that is lost was carried out, but its answer cannot be
      used. `retry` says that the message of the raised exception contains "unable to lock". */
  datatype Enqueue = Granted(id: nat) | Declined | EnqueueFails(retry: bool) | Lost(retry: bool)

  datatype Call = Succeeds | CallFails(retry: bool)

  /** The answer to a release: done, answered but not done, or an exception. */
  datatype Release = Released | Unconfirmed | ReleaseFails

  /** What the calls about one environment meet, in the order of the code. `group` and `mapping` say that
      the environment names its group and that the credentials of its one server can be mapped; anything
      else in the answers raises an exception. */
  datatype Server = Server(
    enqueue: Enqueue, extend: Call, extendAgain: Call, info: Call,
    group: bool, servers: nat, release: Release, mapping: bool)

  datatype Listing = Listed(envs: seq<Environment>) | ListFails(retry: bool)

  // ----- The book -----

  /** `resId` and `named` are the shared lock dictionary. Only the server knows the rest: `held` are the
      reservations made by this run and not released, and `lost` counts those whose id never arrived. */
  datatype Book = Book(resId: Option<nat>, named: Option<nat>, held: set<nat>, lost: nat)

  datatype Reply = Done | Raised(retry: bool)

  const BLANK := Book(None, None, {}, 0)

  /** Whatever is held is recorded. */
  ghost predicate Recorded(b: Book) {
    b.lost == 0 && forall h :: h in b.held ==> b.resId == Some(h)
  }

  // ----- Releasing -----

  function Cleanup(b: Book, cfg: Settings, r: Release): (Book, Reply) {
    if cfg.keepLock || b.resId.None? then (b, Done)
    else
      match r
      case ReleaseFails => (b, Raised(false))
      case Released => (b.(resId := None, held := b.held - {b.resId.value}), Done)
      case Unconfirmed => (b.(resId := None), Done)
  }

  // ----- Locking -----

  datatype LockReply = Got(id: Option<nat>) | LockRaises(retry: bool)

  function LockEnv(b: Book, cfg: Settings, e: Environment, s: Server): (Book, LockReply) {
    if e.state.Available? then
      match s.enqueue
      case Granted(id) => (b.(held := b.held + {id}), Got(Some(id)))
      case Declined => (b, Got(None))
      case EnqueueFails(retry) => (b, LockRaises(retry))
      case Lost(retry) => (b.(lost := b.lost + 1), LockRaises(retry))
    else if e.state.Reserved? && e.mine && cfg.addsTime then
      if s.extend.CallFails? then (b, LockRaises(s.extend.retry)) else (b, Got(e.resId))
    else (b, Got(None))
  }

  /** From the recorded reservation to the credentials; a bad server record cleans up and raises. */
  function Equip(b: Book, cfg: Settings, i: nat, s: Server): (Book, Reply) {
    if s.info.CallFails? then (b, Raised(false))
    else
      var b' := b.(named := Some(i));
      if !s.group then (b', Raised(false))
      else if s.servers != 1 then (Cleanup(b', cfg, s.release).0, Raised(false))
      else if s.mapping then (b', Done)
      else (b', Raised(false))
  }

  /** The user's own reservation on the only environment found: extend and use it. */
  function TakeOwn(b: Book, cfg: Settings, i: nat, e: Environment, s: Server): (Book, Reply) {
    if e.hasLength && s.extendAgain.CallFails? then (b.(resId := e.resId), Raised(s.extendAgain.retry))
    else if s.info.CallFails? then (if e.hasLength then b.(resId := e.resId) else b, Raised(false))
    else Equip(b.(resId := e.resId), cfg, i, s)
  }

  /** `aes_lock` from environment `i` on. */
  function Lock(b: Book, cfg: Settings, envs: seq<Environment>, srv: nat -> Server, i: nat): (Book, Reply)
    requires i <= |envs|
    decreases |envs| - i
  {
    if i == |envs| then (b.(resId := None, named := None), Done)
    else
      var (b1, got) := LockEnv(b, cfg, envs[i], srv(i));
      if got.LockRaises? then (b1, Raised(got.retry))
      else
        var b2 := b1.(resId := got.id);
        if got.id.Some? then Equip(b2, cfg, i, srv(i))
        else if |envs| == 1 && envs[i].mine && envs[i].state.Reserved? then TakeOwn(b2, cfg, i, envs[i], srv(i))
        else Lock(b2, cfg, envs, srv, i + 1)
  }

  /** One attempt of the set-up loop, and how many seconds it takes. */
  datatype Attempt = Attempt(listing: Listing, srv: nat -> Server, seconds: nat)

  function CheckLockers(b: Book, cfg: Settings, a: Attempt): (Book, Reply) {
    if a.listing.ListFails? then (b, Raised(a.listing.retry))
    else
      var (b', r) := Lock(b, cfg, a.listing.envs, a.srv, 0);
      if r.Done? && b'.resId.None? then (b', Raised(true)) else (b', r)
  }

  datatype Ready = Ready(b: Book, locked: bool, attempts: nat)

  /** The set-up loop: once a minute until locked, out of time, or an exception of another kind. */
  function SetUp(b: Book, cfg: Settings, now: int, deadline: int, att: nat -> Attempt, k: nat): Ready
    decreases if now <= deadline then deadline - now + 1 else 0
  {
    var (b', r) := CheckLockers(b, cfg, att(k));
    if r.Done? then Ready(b', true, 1)
    else
      var later := now + att(k).seconds;
      if later > deadline || !r.retry then Ready(b', false, 1)
      else
        var rest := SetUp(b', cfg, later + 60, deadline, att, k + 1);
        rest.(attempts := rest.attempts + 1)
  }

  // ----- The object -----

  class Locker {
    const settings: Settings
    var resId: Option<nat>
    var named: Option<nat>
    ghost var held: set<nat>
    ghost var lost: nat

    ghost function Abs(): Book
      reads this
    {
      Book(resId, named, held, lost)
    }

    constructor (settings: Settings)
      ensures Abs() == BLANK && this.settings == settings
    {
      this.settings := settings;
      resId, named, held, lost := None, None, {}, 0;
    }

    /** `aes_release_reservation` by id. An answer without confirmation still counts as released, so the
        result is `None` only for no id at all. */
    method ReleaseReservation(id: Option<nat>, r: Release) returns (raised: bool, released: Option<nat>)
      modifies this`held
      ensures raised == (id.Some? && r.ReleaseFails?)
      ensures !raised ==> released == id
      ensures held == if id.Some? && r.Released? then old(held) - {id.value} else old(held)
    {
      if id.None? {
        return false, None;
      }
      if r.ReleaseFails? {
        return true, None;
      }
      if r.Released? {
        held := held - {id.value};
      }
      return false, id;
    }

    /** The AES part of `cleanup`. */
    method CleanUp(r: Release) returns (reply: Reply)
      modifies this
      ensures (Abs(), reply) == Cleanup(old(Abs()), settings, r)
    {
      if !settings.keepLock {
        if resId.Some? {
          var raised, released := ReleaseReservation(resId, r);
          if raised {
            return Raised(false);
          }
          // The source's other branch, "unable to verify", needs a release that returned nothing.
          assert released.Some?;
          resId := None;
        }
      }
      reply := Done;
    }

    method LockOne(e: Environment, s: Server) returns (reply: LockReply)
      modifies this`held, this`lost
      ensures (Abs(), reply) == LockEnv(old(Abs()), settings, e, s)
    {
      if e.state.Available? {
        match s.enqueue {
          case Granted(id) =>
            held := held + {id};
            return Got(Some(id));
          case Declined => return Got(None);
          case EnqueueFails(retry) => return LockRaises(retry);
          case Lost(retry) =>
            lost := lost + 1;
            return LockRaises(retry);
        }
      }
      if e.state.Reserved? && e.mine && settings.addsTime {
        return if s.extend.CallFails? then LockRaises(s.extend.retry) else Got(e.resId);
      }
      reply := Got(None);
    }

    /** `aes_get_env`, the dictionary's other entries, and `aes_get_creds`. */
    method FetchCredentials(i: nat, s: Server) returns (reply: Reply)
      modifies this
      ensures (Abs(), reply) == Equip(old(Abs()), settings, i, s)
    {
      if s.info.CallFails? {
        return Raised(false);
      }
      named := Some(i);
      if !s.group {
        return Raised(false);
      }
      if s.servers != 1 {
        var _ := CleanUp(s.release);
        return Raised(false);
      }
      reply := if s.mapping then Done else Raised(false);
    }

    method LockAny(envs: seq<Environment>, srv: nat -> Server) returns (reply: Reply)
      modifies this
      ensures (Abs(), reply) == Lock(old(Abs()), settings, envs, srv, 0)
    {
      hide Equip;
      for i := 0 to |envs|
        invariant Lock(old(Abs()), settings, envs, srv, 0) == Lock(Abs(), settings, envs, srv, i)
      {
        var e, s := envs[i], srv(i);
        var got := LockOne(e, s);
        if got.LockRaises? {
          return Raised(got.retry);
        }
        resId := got.id;
        if resId.Some? {
          reply := FetchCredentials(i, s);
          return;
        }
        if |envs| == 1 && e.mine && e.state.Reserved? {
          if e.hasLength {
            resId := e.resId;
            if s.extendAgain.CallFails? {
              return Raised(s.extendAgain.retry);
            }
          }
          if s.info.CallFails? {
            return Raised(false);
          }
          resId := e.resId;
          reply := FetchCredentials(i, s);
          return;
        }
      }
      resId, named := None, None;
      reply := Done;
    }

    method Check(a: Attempt) returns (reply: Reply)
      modifies this
      ensures (Abs(), reply) == CheckLockers(old(Abs()), settings, a)
    {
      if a.listing.ListFails? {
        return Raised(a.listing.retry);
      }
      reply := LockAny(a.listing.envs, a.srv);
      if reply.Done? && resId.None? {
        reply := Raised(true);
      }
    }

    /** The loop of `do_testing_setup`, `wait` being the minutes of --locker-wait. */
    method SetUpLockers(start: int, wait: int, att: nat -> Attempt) returns (locked: bool, ghost attempts: nat)
      modifies this
      ensures Ready(Abs(), locked, attempts) == SetUp(old(Abs()), settings, start, start + 60 * wait, att, 0)
    {
      hide CheckLockers;
      var now, deadline, k := start, start + 60 * wait, 0;
      while true
        invariant SetUp(old(Abs()), settings, start, deadline, att, 0) ==
                  var rest := SetUp(Abs(), settings, now, deadline, att, k);
                  rest.(attempts := rest.attempts + k)
        decreases if now <= deadline then deadline - now + 1 else 0
      {
        var reply := Check(att(k));
        if reply.Done? {
          return true, k + 1;
        }
        now := now + att(k).seconds;
        if now > deadline || !reply.retry {
          return false, k + 1;
        }
        now := now + 60;
        k := k + 1;
      }
    }
  }

  // ----- At most one reservation, always on record -----

  /** The cleanup after a bad server record is answered without being carried out. */
  predicate Slips(cfg: Settings, s: Server) {
    s.info.Succeeds? && s.group && s.servers != 1 && !cfg.keepLock && s.release.Unconfirmed?
  }

  /** The server's answer to an enqueue that the code makes does not arrive. */
  predicate LosesAnswer(e: Environment, s: Server) {
    e.state.Available? && s.enqueue.Lost?
  }

  predicate Own(e: Environment) {
    e.state.Reserved? && e.mine
  }

  /** `aes_lock` looks at the next environment: this one is declined, or nothing is asked for it, or the
      user's own reservation was extended but has no id. */
  predicate PassedBy(cfg: Settings, e: Environment, s: Server) {
    if e.state.Available? then s.enqueue.Declined?
    else Own(e) && cfg.addsTime ==> s.extend.Succeeds? && e.resId.None?
  }

  /** The first environment that `aes_lock` does not pass by, or `|envs|`. */
  function FirstNotPassed(cfg: Settings, envs: seq<Environment>, srv: nat -> Server, i: nat): (n: nat)
    requires i <= |envs|
    ensures i <= n <= |envs|
    ensures forall j :: i <= j < n ==> PassedBy(cfg, envs[j], srv(j))
    ensures n < |envs| ==> !PassedBy(cfg, envs[n], srv(n))
    decreases |envs| - i
  {
    if i == |envs| || !PassedBy(cfg, envs[i], srv(i)) then i else FirstNotPassed(cfg, envs, srv, i + 1)
  }

  /** The answer of the first environment not passed by is lost. */
  predicate Loses(cfg: Settings, envs: seq<Environment>, srv: nat -> Server, i: nat)
    requires i <= |envs|
  {
    var n := FirstNotPassed(cfg, envs, srv, i);
    n < |envs| && LosesAnswer(envs[n], srv(n))
  }

  /** `aes_lock` leaves a reservation off the record: the first environment that it does not pass by loses
      the answer, or is granted and its release after a bad server record slips. */
  predicate Forgets(cfg: Settings, envs: seq<Environment>, srv: nat -> Server, i: nat)
    requires i <= |envs|
  {
    var n := FirstNotPassed(cfg, envs, srv, i);
    n < |envs| && envs[n].state.Available?
    && (srv(n).enqueue.Lost? || (srv(n).enqueue.Granted? && Slips(cfg, srv(n))))
  }

  predicate AttemptForgets(cfg: Settings, a: Attempt) {
    a.listing.Listed? && Forgets(cfg, a.listing.envs, a.srv, 0)
  }

  predicate AttemptLoses(cfg: Settings, a: Attempt) {
    a.listing.Listed? && Loses(cfg, a.listing.envs, a.srv, 0)
  }

  /** What an attempt that started from `b0`, holding nothing it knows of, leaves behind. */
  ghost predicate Sound(b0: Book, b: Book, r: Reply, forgot: bool, lost: bool) {
    && |b.held| <= 1
    && b.lost == b0.lost + (if lost then 1 else 0) && (lost ==> forgot && b.held == {})
    && (Recorded(Known(b)) <==> lost || !forgot)
    && (forgot && !lost ==> r == Raised(false) && b.resId.None?)
    && (r.Raised? && r.retry ==> b.held == {})
    && (r.Done? && b.resId.None? ==> b.held == {})
    && (r.Done? && b.resId.Some? ==> b.named.Some?)
  }

  /** The book's own view, without the reservations whose id never arrived. */
  function Known(b: Book): Book {
    b.(lost := 0)
  }

  lemma EquipSound(b: Book, cfg: Settings, i: nat, s: Server)
    requires Recorded(Known(b)) && |b.held| <= 1 && b.resId.Some?
    ensures var (b', r) := Equip(b, cfg, i, s); Sound(b, b', r, b.held != {} && Slips(cfg, s), false)
  {
    if b.held != {} {
      HeldIsRecorded(Known(b));
    }
  }

  lemma TakeOwnSound(b: Book, cfg: Settings, i: nat, e: Environment, s: Server)
    requires b.held == {}
    ensures var (b', r) := TakeOwn(b, cfg, i, e, s); Sound(b, b', r, false, false)
  {
  }

  /** An environment that is not passed by ends `aes_lock`. */
  lemma TakenSound(b: Book, cfg: Settings, envs: seq<Environment>, srv: nat -> Server, i: nat)
    requires i < |envs| && b.held == {} && !PassedBy(cfg, envs[i], srv(i))
    ensures var (b', r) := Lock(b, cfg, envs, srv, i);
            Sound(b, b', r, Forgets(cfg, envs, srv, i), Loses(cfg, envs, srv, i))
  {
    hide Equip, TakeOwn, Slips, Sound;
    assert FirstNotPassed(cfg, envs, srv, i) == i;
    var (b1, got) := LockEnv(b, cfg, envs[i], srv(i));
    if got.Got? {
      var b2 := b1.(resId := got.id);
      EquipSound(b2, cfg, i, srv(i));
      assert b2.held != {} <==> envs[i].state.Available? by {
        assert envs[i].state.Available? ==> got.id.value in b2.held;
      }
      var (b', r) := Equip(b2, cfg, i, srv(i));
      SameStart(b, b2, b', r, b2.held != {} && Slips(cfg, srv(i)), false);
    } else {
      RaisedSound(b, b1, got.retry, LosesAnswer(envs[i], srv(i)));
    }
  }

  lemma SameStart(b0: Book, b1: Book, b: Book, r: Reply, forgot: bool, lost: bool)
    requires b0.lost == b1.lost && Sound(b1, b, r, forgot, lost)
    ensures Sound(b0, b, r, forgot, lost)
  {
  }

  lemma RaisedSound(b0: Book, b: Book, retry: bool, lost: bool)
    requires b0.held == {} && b == b0.(lost := b0.lost + if lost then 1 else 0)
    ensures Sound(b0, b, Raised(retry), lost, lost)
  {
  }

  lemma NothingTakenSound(b: Book)
    requires b.held == {}
    ensures Sound(b, b.(resId := None, named := None), Done, false, false)
  {
  }

  /** Whatever call fails: at most one new reservation is held, and it is on record, exactly unless the
      answer to its enqueue was lost or the one release that `aes_lock` itself asks for slips. */
  lemma {:induction false} LockKeepsRecord(b: Book, cfg: Settings, envs: seq<Environment>, srv: nat -> Server, i: nat)
    requires i <= |envs| && b.held == {}
    ensures var (b', r) := Lock(b, cfg, envs, srv, i);
            Sound(b, b', r, Forgets(cfg, envs, srv, i), Loses(cfg, envs, srv, i))
    decreases |envs| - i
  {
    hide Equip, TakeOwn, Slips, Sound;
    if i == |envs| {
      NothingTakenSound(b);
    } else if !PassedBy(cfg, envs[i], srv(i)) {
      TakenSound(b, cfg, envs, srv, i);
    } else {
      var b2 := b.(resId := None);
      TakeOwnSound(b2, cfg, i, envs[i], srv(i));
      LockKeepsRecord(b2, cfg, envs, srv, i + 1);
      var (b', r) := Lock(b, cfg, envs, srv, i);
      SameStart(b, b2, b', r, Forgets(cfg, envs, srv, i), Loses(cfg, envs, srv, i));
    }
  }

  /** Environments are tried in order: the one that ends up named is the first that gave a reservation (or
      the user's own, if it is the only one), and it is the one whose id is on record. */
  lemma {:induction false} LockTakesFirstWilling(
    b: Book, cfg: Settings, envs: seq<Environment>, srv: nat -> Server, i: nat)
    requires i <= |envs| && b.held == {} && b.named.None?
    requires Lock(b, cfg, envs, srv, i).1.Done?
    ensures var b' := Lock(b, cfg, envs, srv, i).0;
            if b'.named.None? then
              b'.resId.None? && forall j :: i <= j < |envs| ==> PassedBy(cfg, envs[j], srv(j))
            else
              var n := b'.named.value;
              && i <= n < |envs|
              && (forall j :: i <= j < n ==> PassedBy(cfg, envs[j], srv(j)))
              && ((!PassedBy(cfg, envs[n], srv(n)) && Taken(cfg, envs[n], srv(n)) == b'.resId)
                  || (|envs| == 1 && envs[n].mine && envs[n].state.Reserved? && b'.resId == envs[n].resId))
    decreases |envs| - i
  {
    hide Cleanup;
    if i < |envs| {
      var (b1, got) := LockEnv(b, cfg, envs[i], srv(i));
      if got.Got? && got.id.None? {
        if !(|envs| == 1 && envs[i].mine && envs[i].state.Reserved?) {
          LockTakesFirstWilling(b1.(resId := None), cfg, envs, srv, i + 1);
        }
      }
    }
  }

  /** One of the `n` attempts from number `k` on left a reservation off the record. */
  ghost predicate SomeForgets(cfg: Settings, att: nat -> Attempt, k: nat, n: nat) {
    exists j: nat :: k <= j < k + n && AttemptForgets(cfg, att(j))
  }

  /** How many of the `n` attempts from number `k` on lost the server's answer. */
  function Losses(cfg: Settings, att: nat -> Attempt, k: nat, n: nat): nat
    decreases n
  {
    if n == 0 then 0 else (if AttemptLoses(cfg, att(k)) then 1 else 0) + Losses(cfg, att, k + 1, n - 1)
  }

  /** Whatever fails and however often set-up repeats: besides one reservation for every lost answer at most
      one is held, and everything held is on record in the end exactly if no attempt left one off. A set-up
      that succeeds has a reservation on record. */
  lemma {:induction false} SetUpKeepsRecord(
    b: Book, cfg: Settings, now: int, deadline: int, att: nat -> Attempt, k: nat)
    requires b.held == {}
    ensures var ready := SetUp(b, cfg, now, deadline, att, k);
            && |ready.b.held| <= 1
            && ready.b.lost == b.lost + Losses(cfg, att, k, ready.attempts)
            && (Recorded(ready.b) <==> b.lost == 0 && !SomeForgets(cfg, att, k, ready.attempts))
            && (!Recorded(Known(ready.b)) ==> !ready.locked && ready.b.resId.None?)
            && (ready.locked ==> ready.b.resId.Some? && ready.b.named.Some?)
    decreases if now <= deadline then deadline - now + 1 else 0
  {
    hide Lock, Forgets, Loses, Recorded, Known;
    var a := att(k);
    if a.listing.Listed? {
      LockKeepsRecord(b, cfg, a.listing.envs, a.srv, 0);
    }
    var (b', r) := CheckLockers(b, cfg, a);
    RecordedAlone(b);
    RecordedAlone(b');
    if r.Raised? && r.retry && now + a.seconds <= deadline {
      SetUpKeepsRecord(b', cfg, now + a.seconds + 60, deadline, att, k + 1);
    }
  }

  lemma RecordedAlone(b: Book)
    ensures Recorded(b) <==> b.lost == 0 && Recorded(Known(b))
    ensures b.held == {} ==> Recorded(Known(b))
  {
  }

  /** With --locker-wait of `w` minutes the loop makes at most w + 2 attempts. */
  lemma {:induction false} SetUpAttempts(b: Book, cfg: Settings, now: int, deadline: int, att: nat -> Attempt, k: nat)
    ensures SetUp(b, cfg, now, deadline, att, k).attempts <= if now <= deadline then (deadline - now) / 60 + 2 else 1
    decreases if now <= deadline then deadline - now + 1 else 0
  {
    hide CheckLockers;
    var (b', r) := CheckLockers(b, cfg, att(k));
    var later := now + att(k).seconds;
    if r.Raised? && r.retry && later <= deadline {
      SetUpAttempts(b', cfg, later + 60, deadline, att, k + 1);
    }
  }

  // ----- When a reservation is got -----

  /** The environment's information, its group, its one server record and the credentials are all good. */
  predicate Equips(s: Server) {
    s.info.Succeeds? && s.group && s.servers == 1 && s.mapping
  }

  /** All environments were passed by, and the only one is the user's own reservation. */
  predicate OnlyOwn(envs: seq<Environment>, i: nat, n: nat) {
    n == |envs| && i == 0 && |envs| == 1 && Own(envs[0])
  }

  /** The id that a call gets from an environment it does not pass by, if it gets one. */
  function Taken(cfg: Settings, e: Environment, s: Server): Option<nat> {
    if e.state.Available? then if s.enqueue.Granted? then Some(s.enqueue.id) else None
    else if s.extend.Succeeds? then e.resId
    else None
  }

  /** The reservation that `aes_lock` ends up with: that of the first environment not passed by, or the
      user's own if it is the only one, provided that its credentials can be had. */
  function Locked(cfg: Settings, envs: seq<Environment>, srv: nat -> Server, i: nat): Option<nat>
    requires i <= |envs|
  {
    var n := FirstNotPassed(cfg, envs, srv, i);
    if n < |envs| then if Equips(srv(n)) then Taken(cfg, envs[n], srv(n)) else None
    else if OnlyOwn(envs, i, n) && (envs[0].hasLength ==> srv(0).extendAgain.Succeeds?) && Equips(srv(0)) then
      envs[0].resId
    else None
  }

  /** `aes_lock` ends in "unable to lock": a call says so, or nothing was left to be tried. */
  predicate UnableToLock(cfg: Settings, envs: seq<Environment>, srv: nat -> Server, i: nat)
    requires i <= |envs|
  {
    var n := FirstNotPassed(cfg, envs, srv, i);
    if n < |envs| then
      if envs[n].state.Available? then srv(n).enqueue in {EnqueueFails(true), Lost(true)}
      else srv(n).extend == CallFails(true)
    else if OnlyOwn(envs, i, n) then
      if envs[0].hasLength && srv(0).extendAgain.CallFails? then srv(0).extendAgain.retry
      else Equips(srv(0)) && envs[0].resId.None?
    else true
  }

  ghost predicate LockOutcome(b: Book, r: Reply, id: Option<nat>, unable: bool) {
    && (r.Done? && b.resId.Some? <==> id.Some?)
    && (id.Some? ==> b.resId == id)
    && (r == Raised(true) || (r.Done? && b.resId.None?) <==> unable)
  }

  lemma TakenOutcome(b: Book, cfg: Settings, envs: seq<Environment>, srv: nat -> Server, i: nat)
    requires i < |envs| && !PassedBy(cfg, envs[i], srv(i))
    ensures var (b', r) := Lock(b, cfg, envs, srv, i);
            LockOutcome(b', r, Locked(cfg, envs, srv, i), UnableToLock(cfg, envs, srv, i))
  {
    assert FirstNotPassed(cfg, envs, srv, i) == i;
  }

  lemma OwnOutcome(b: Book, cfg: Settings, envs: seq<Environment>, srv: nat -> Server)
    requires |envs| == 1 && Own(envs[0]) && PassedBy(cfg, envs[0], srv(0))
    ensures var (b', r) := Lock(b, cfg, envs, srv, 0);
            LockOutcome(b', r, Locked(cfg, envs, srv, 0), UnableToLock(cfg, envs, srv, 0))
  {
    assert FirstNotPassed(cfg, envs, srv, 0) == 1;
  }

  /** `aes_lock` returns with a reservation on record exactly if there is one to end up with, and the record is
      that one; and it ends in "unable to lock" exactly as stated. */
  lemma {:induction false} LockExactly(b: Book, cfg: Settings, envs: seq<Environment>, srv: nat -> Server, i: nat)
    requires i <= |envs|
    ensures var (b', r) := Lock(b, cfg, envs, srv, i);
            LockOutcome(b', r, Locked(cfg, envs, srv, i), UnableToLock(cfg, envs, srv, i))
    decreases |envs| - i
  {
    if i < |envs| {
      if !PassedBy(cfg, envs[i], srv(i)) {
        TakenOutcome(b, cfg, envs, srv, i);
      } else if |envs| == 1 && Own(envs[i]) {
        OwnOutcome(b, cfg, envs, srv);
      } else {
        LockExactly(b.(resId := None), cfg, envs, srv, i + 1);
        PassingBy(b, cfg, envs, srv, i);
        hide Lock, LockOutcome, LockEnv, PassedBy;
      }
    }
  }

  lemma PassingBy(b: Book, cfg: Settings, envs: seq<Environment>, srv: nat -> Server, i: nat)
    requires i < |envs| && PassedBy(cfg, envs[i], srv(i)) && !(|envs| == 1 && Own(envs[i]))
    ensures Lock(b, cfg, envs, srv, i) == Lock(b.(resId := None), cfg, envs, srv, i + 1)
  {
    hide Equip, TakeOwn;
  }

  // ----- When set-up locks -----

  predicate AttemptLocks(cfg: Settings, a: Attempt) {
    a.listing.Listed? && Locked(cfg, a.listing.envs, a.srv, 0).Some?
  }

  predicate AttemptUnable(cfg: Settings, a: Attempt) {
    match a.listing
    case ListFails(retry) => retry
    case Listed(envs) => UnableToLock(cfg, envs, a.srv, 0)
  }

  lemma AttemptExactly(b: Book, cfg: Settings, a: Attempt)
    ensures var (b', r) := CheckLockers(b, cfg, a);
            && (r.Done? <==> AttemptLocks(cfg, a))
            && (r.Done? ==> b'.resId == Locked(cfg, a.listing.envs, a.srv, 0))
            && (r == Raised(true) <==> AttemptUnable(cfg, a))
  {
    if a.listing.Listed? {
      LockExactly(b, cfg, a.listing.envs, a.srv, 0);
    }
    hide Lock, Locked, UnableToLock;
  }

  /** Of the attempts from number `k` on, begun at `now`, the first `n` end in "unable to lock" not after the
      deadline, each followed by a minute's wait, and the next one locks. */
  predicate LocksAfter(cfg: Settings, now: int, deadline: int, att: nat -> Attempt, k: nat, n: nat)
    decreases n
  {
    if n == 0 then AttemptLocks(cfg, att(k))
    else
      && AttemptUnable(cfg, att(k)) && now + att(k).seconds <= deadline
      && LocksAfter(cfg, now + att(k).seconds + 60, deadline, att, k + 1, n - 1)
  }

  /** Set-up locks exactly if some attempt does after others that were all unable to lock and in time; it is
      then the last attempt made, and its reservation is on record. */
  lemma SetUpLocksExactly(b: Book, cfg: Settings, now: int, deadline: int, att: nat -> Attempt, k: nat)
    ensures var ready := SetUp(b, cfg, now, deadline, att, k);
            && (ready.locked <==> exists n: nat :: LocksAfter(cfg, now, deadline, att, k, n))
            && (forall n: nat :: LocksAfter(cfg, now, deadline, att, k, n) ==> ready.attempts == n + 1)
            && (ready.locked ==> AttemptLocks(cfg, att(k + ready.attempts - 1)))
            && (ready.locked ==>
                  var last := att(k + ready.attempts - 1);
                  ready.b.resId == Locked(cfg, last.listing.envs, last.srv, 0))
  {
    hide SetUp, Locked, AttemptLocks;
    LockedSetUp(b, cfg, now, deadline, att, k);
    forall n: nat | LocksAfter(cfg, now, deadline, att, k, n)
      ensures SetUp(b, cfg, now, deadline, att, k).locked && SetUp(b, cfg, now, deadline, att, k).attempts == n + 1
    {
      SetUpReaches(b, cfg, now, deadline, att, k, n);
    }
  }

  lemma {:induction false} LockedSetUp(b: Book, cfg: Settings, now: int, deadline: int, att: nat -> Attempt, k: nat)
    ensures var ready := SetUp(b, cfg, now, deadline, att, k);
            && ready.attempts >= 1
            && (ready.locked ==>
                  var last := att(k + ready.attempts - 1);
                  && LocksAfter(cfg, now, deadline, att, k, ready.attempts - 1) && AttemptLocks(cfg, last)
                  && ready.b.resId == Locked(cfg, last.listing.envs, last.srv, 0))
    decreases if now <= deadline then deadline - now + 1 else 0
  {
    hide CheckLockers, Locked, AttemptUnable;
    AttemptExactly(b, cfg, att(k));
    var (b', r) := CheckLockers(b, cfg, att(k));
    if r.Raised? && r.retry && now + att(k).seconds <= deadline {
      LockedSetUp(b', cfg, now + att(k).seconds + 60, deadline, att, k + 1);
    }
  }

  lemma {:induction false} SetUpReaches(
    b: Book, cfg: Settings, now: int, deadline: int, att: nat -> Attempt, k: nat, n: nat)
    requires LocksAfter(cfg, now, deadline, att, k, n)
    ensures var ready := SetUp(b, cfg, now, deadline, att, k); ready.locked && ready.attempts == n + 1
    decreases n
  {
    hide CheckLockers, AttemptLocks, AttemptUnable;
    AttemptExactly(b, cfg, att(k));
    if n > 0 {
      SetUpReaches(CheckLockers(b, cfg, att(k)).0, cfg, now + att(k).seconds + 60, deadline, att, k + 1, n - 1);
    }
  }

  // ----- Cleaning up, any number of times -----

  function Cleanups(b: Book, cfg: Settings, rs: seq<Release>): Book {
    if |rs| == 0 then b else Cleanup(Cleanups(b, cfg, rs[..|rs| - 1]), cfg, rs[|rs| - 1]).0
  }

  /** Each cleanup keeps the record honest until one is answered without being carried out. */
  lemma CleanupKeepsRecord(b: Book, cfg: Settings, r: Release)
    requires Recorded(Known(b)) && |b.held| <= 1
    ensures var (b', reply) := Cleanup(b, cfg, r);
            && |b'.held| <= 1 && b'.lost == b.lost
            && (!r.Unconfirmed? ==> Recorded(Known(b')))
            && (Recorded(Known(b')) <==> !r.Unconfirmed? || cfg.keepLock || b.held == {})
            && (reply.Raised? ==> b' == b)
            && (!cfg.keepLock && reply.Done? ==> b'.resId.None?)
  {
    if b.held != {} {
      HeldIsRecorded(Known(b));
    }
  }

  lemma HeldIsRecorded(b: Book)
    requires Recorded(b) && b.held != {}
    ensures b.resId.Some? && b.held == {b.resId.value}
  {
    var h :| h in b.held;
  }

  /** With keep-lock off, a cleanup that does not raise leaves none held exactly if nothing was held or the
      server carried the release out. */
  lemma CleanupReleasesExactly(b: Book, cfg: Settings, r: Release)
    requires Recorded(Known(b)) && !cfg.keepLock && Cleanup(b, cfg, r).1.Done?
    ensures Cleanup(b, cfg, r).0.held == {} <==> b.held == {} || r.Released?
  {
    if b.held != {} {
      HeldIsRecorded(Known(b));
    }
  }

  /** Once the record is empty, or with keep-lock, every further cleanup does nothing to reservations. */
  lemma {:induction false} LaterCleanupsDoNothing(b: Book, cfg: Settings, rs: seq<Release>)
    requires cfg.keepLock || b.resId.None?
    ensures Cleanups(b, cfg, rs) == b
  {
    if |rs| > 0 {
      LaterCleanupsDoNothing(b, cfg, rs[..|rs| - 1]);
    }
  }

  /** A run from start to finish: set-up under any failures, a number of cleanups whose release raises, one
      whose release is carried out, and any further ones. With keep-lock off nothing stays held, exactly
      if set-up did not forget a reservation. */
  lemma WholeRunReleases(
    cfg: Settings, start: int, wait: int, att: nat -> Attempt, failing: seq<Release>, later: seq<Release>)
    requires !cfg.keepLock && forall i :: 0 <= i < |failing| ==> failing[i].ReleaseFails?
    ensures var ready := SetUp(BLANK, cfg, start, start + 60 * wait, att, 0);
            var b1 := Cleanup(Cleanups(ready.b, cfg, failing), cfg, Released).0;
            && Cleanups(ready.b, cfg, failing) == ready.b
            && (b1.held == {} && b1.lost == 0 <==> !SomeForgets(cfg, att, 0, ready.attempts))
            && b1.resId.None? && Cleanups(b1, cfg, later) == b1
  {
    hide SetUp, SomeForgets;
    SetUpKeepsRecord(BLANK, cfg, start, start + 60 * wait, att, 0);
    var b := SetUp(BLANK, cfg, start, start + 60 * wait, att, 0).b;
    FailingCleanups(b, cfg, failing);
    RecordedAlone(b);
    if Recorded(Known(b)) {
      CleanupReleasesExactly(b, cfg, Released);
    }
    LaterCleanupsDoNothing(Cleanup(b, cfg, Released).0, cfg, later);
  }

  /** Such a run exists: the one environment found is granted, has no server record, and the release is
      answered without being carried out. Set-up ends at once with the reservation held and off the
      record, and no cleanup ever releases it. */
  lemma SetUpForgets(
    cfg: Settings, start: int, wait: int, e: Environment, att: nat -> Attempt, id: nat, later: seq<Release>)
    requires !cfg.keepLock && e.state.Available?
    requires var s := att(0).srv(0);
             && att(0).listing == Listed([e])
             && s.enqueue == Granted(id) && s.info.Succeeds? && s.group && s.servers == 0 && s.release.Unconfirmed?
    ensures var ready := SetUp(BLANK, cfg, start, start + 60 * wait, att, 0);
            && !ready.locked && ready.attempts == 1
            && ready.b == Book(None, Some(0), {id}, 0) && Cleanups(ready.b, cfg, later) == ready.b
  {
    assert BLANK.held + {id} == {id} && att(0).listing.envs[0] == e;
    assert CheckLockers(BLANK, cfg, att(0)) == (Book(None, Some(0), {id}, 0), Raised(false));
    LaterCleanupsDoNothing(Book(None, Some(0), {id}, 0), cfg, later);
  }

  lemma {:induction false} FailingCleanups(b: Book, cfg: Settings, rs: seq<Release>)
    requires forall i :: 0 <= i < |rs| ==> rs[i].ReleaseFails?
    ensures Cleanups(b, cfg, rs) == b
  {
    if |rs| > 0 {
      FailingCleanups(b, cfg, rs[..|rs| - 1]);
    }
  }

  /** An answered but unexecuted release is forgotten: the reservation stays held, no later cleanup tries
      again. */
  lemma UnconfirmedReleaseLeaks(b: Book, cfg: Settings, later: seq<Release>)
    requires !cfg.keepLock && Recorded(Known(b)) && b.held != {}
    ensures var b1 := Cleanup(b, cfg, Unconfirmed).0;
            b1.resId.None? && Cleanups(b1, cfg, later).held == b.held
  {
    HeldIsRecorded(Known(b));
    LaterCleanupsDoNothing(Cleanup(b, cfg, Unconfirmed).0, cfg, later);
  }
}
