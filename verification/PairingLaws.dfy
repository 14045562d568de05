/** What the pairing operations keep between the database and the gateway, and what a
    batch approval amounts to. */
module PairingLaws {
  import opened Basics
  import opened Options
  import opened Pairing

  // ---- Lists ----------------------------------------------------------------------------

  lemma DedupStep(list: seq<Sender>, x: Sender)
    ensures Dedup(list + [x]) == if x in list then Dedup(list) else Dedup(list) + [x]
  {
    assert (list + [x])[..|list|] == list;
  }

  lemma {:induction false} DedupTwice(a: seq<Sender>, b: seq<Sender>)
    ensures Dedup(Dedup(a) + b) == Dedup(a + b)
  {
    if b == [] {
      assert Dedup(a) + b == Dedup(a) && a + b == a;
      DedupAgain(a);
    } else {
      var init, last := b[..|b| - 1], b[|b| - 1];
      DedupTwice(a, init);
      DedupTwiceMore(a, init, last);
      assert b == init + [last];
    }
  }

  lemma DedupTwiceMore(a: seq<Sender>, b: seq<Sender>, x: Sender)
    requires Dedup(Dedup(a) + b) == Dedup(a + b)
    ensures Dedup(Dedup(a) + (b + [x])) == Dedup(a + (b + [x]))
  {
    DedupOnce(a);
    DedupStep(Dedup(a) + b, x);
    DedupStep(a + b, x);
    Regroup(Dedup(a), b, [x]);
    Regroup(a, b, [x]);
  }

  lemma {:induction false} DedupAgain(a: seq<Sender>)
    ensures Dedup(Dedup(a)) == Dedup(a)
  {
    if a != [] {
      var init, last := a[..|a| - 1], a[|a| - 1];
      DedupAgain(init);
      if last !in init {
        DedupOnce(init);
        assert (Dedup(init) + [last])[..|Dedup(init)|] == Dedup(init);
      }
    }
  }

  // ---- Runs -----------------------------------------------------------------------------------

  datatype Op =
    | Approving(d: Device, reached: bool)
    | Rejecting(d: Device)
    | Revoking(d: Device, reached: bool)
    | Creating(d: Device, code: string, expiresAt: int)
    | Batching(list: seq<Device>, channels: set<Channel>)
    | Syncing(imported: set<Device>)
    | Expiring(now: int)

  function Do(n: Naming, s: Stores, op: Op): Stores {
    match op
    case Approving(d, reached) => Approve(n, s, d, reached)
    case Rejecting(d) => Reject(s, d)
    case Revoking(d, reached) => Revoke(n, s, d, reached)
    case Creating(d, code, expiresAt) => CreatePending(s, d, code, expiresAt)
    case Batching(list, reached) => BatchApprove(n, s, list, reached)
    case Syncing(imported) => Import(s, imported)
    case Expiring(now) => ExpireStale(s, now)
  }

  function After(n: Naming, s: Stores, ops: seq<Op>): Stores {
    if ops == [] then s else Do(n, After(n, s, ops[..|ops| - 1]), ops[|ops| - 1])
  }

  // ---- At most three pending rows per channel ----------------------------------------------------

  ghost predicate Limited(s: Stores) {
    forall channel :: |PendingOn(s, channel)| <= 3
  }

  lemma GroupsKeepRows(n: Naming, s: Stores, groups: Groups)
    ensures GrantGroups(n, s, groups).rows == s.rows
  {
  }

  lemma LimitedStep(n: Naming, s: Stores, op: Op, channel: Channel)
    requires |PendingOn(s, channel)| <= 3
    ensures |PendingOn(Do(n, s, op), channel)| <= 3
  {
    var t := Do(n, s, op);
    if op.Creating? && op.d.channel == channel && |PendingOn(s, channel)| < 3 {
      assert PendingOn(t, channel) <= PendingOn(s, channel) + {op.d};
      Fewer(PendingOn(t, channel), PendingOn(s, channel) + {op.d});
    } else {
      if op.Batching? {
        GroupsKeepRows(n, s.(rows := MarkAll(s.rows, PendingAll(s), Approved)), Taken(Grouped(op.list), op.channels));
      }
      assert PendingOn(t, channel) <= PendingOn(s, channel);
      Fewer(PendingOn(t, channel), PendingOn(s, channel));
    }
  }

  /** Whatever operations come, and whether or not the gateway takes the patches, no
      channel has more than three pending rows. */
  lemma {:induction false} PendingLimit(n: Naming, s: Stores, ops: seq<Op>)
    requires Limited(s)
    ensures Limited(After(n, s, ops))
  {
    if ops != [] {
      var t := After(n, s, ops[..|ops| - 1]);
      PendingLimit(n, s, ops[..|ops| - 1]);
      forall channel ensures |PendingOn(After(n, s, ops), channel)| <= 3 {
        LimitedStep(n, t, ops[|ops| - 1], channel);
      }
    }
  }

  // ---- Codes -------------------------------------------------------------------------------

  /** The operation concerns the row of this device, which waits with this expiry: it approves,
      rejects, imports, renews or expires it. */
  predicate Concerns(op: Op, d: Device, expiresAt: int) {
    match op
    case Approving(e, _) => e == d
    case Rejecting(e) => e == d
    case Revoking(_, _) => false
    case Creating(e, _, _) => e == d
    case Batching(_, _) => true
    case Syncing(imported) => d in imported
    case Expiring(now) => expiresAt < now
  }

  ghost predicate NoneConcern(ops: seq<Op>, d: Device, expiresAt: int) {
    forall i | 0 <= i < |ops| :: !Concerns(ops[i], d, expiresAt)
  }

  lemma {:induction false} RowStays(n: Naming, s: Stores, d: Device, row: Row, ops: seq<Op>)
    requires d in s.rows && s.rows[d] == row && row.state == Pending && row.expiresAt.Some?
    requires NoneConcern(ops, d, row.expiresAt.value)
    ensures var t := After(n, s, ops); d in t.rows && t.rows[d] == row
  {
    if ops != [] {
      RowStays(n, s, d, row, ops[..|ops| - 1]);
      RowStaysOnce(n, After(n, s, ops[..|ops| - 1]), d, row, ops[|ops| - 1]);
    }
  }

  lemma RowStaysOnce(n: Naming, s: Stores, d: Device, row: Row, op: Op)
    requires d in s.rows && s.rows[d] == row && row.state == Pending && row.expiresAt.Some?
    requires !Concerns(op, d, row.expiresAt.value)
    ensures d in Do(n, s, op).rows && Do(n, s, op).rows[d] == row
  {
  }

  /** A request on a channel with fewer than three waiting ones gets a code that works, and no
      other, at every time before its expiry, whatever happens as long as nothing concerns
      that device. */
  lemma {:induction false} CodeWorks(n: Naming, s: Stores, d: Device, code: string, expiresAt: int, ops: seq<Op>,
                                     asked: string, now: int)
    requires |PendingOn(s, d.channel)| < 3 && NoneConcern(ops, d, expiresAt)
    ensures var t := After(n, CreatePending(s, d, code, expiresAt), ops);
            && d in t.rows && t.rows[d] == Row(Pending, Some(code), Some(expiresAt))
            && (Answers(t.rows[d], asked, now) <==> asked == code && now < expiresAt)
  {
    var waiting := CreatePending(s, d, code, expiresAt);
    RowStays(n, waiting, d, Row(Pending, Some(code), Some(expiresAt)), ops);
  }

  // ---- Approved senders are allowed -------------------------------------------------------------

  predicate RowAllowed(n: Naming, s: Stores, d: Device) {
    Has(s, d, Approved) ==> d.sender in Allowed(s, n.key(d.channel))
  }

  ghost predicate ApprovedAllowed(n: Naming, s: Stores) {
    forall d :: RowAllowed(n, s, d)
  }

  /** Rows stand on channels that have a config key of their own. */
  ghost predicate AllNamed(n: Naming, s: Stores) {
    forall d | d in s.rows :: Named(n, d.channel)
  }

  /** An operation of the service whose patches go through, on a channel with a key of its
      own.  A sync may stop part-way. */
  ghost predicate Proper(n: Naming, s: Stores, op: Op) {
    match op
    case Approving(d, reached) => reached && Named(n, d.channel)
    case Revoking(d, reached) => reached && Named(n, d.channel)
    case Creating(d, _, _) => Named(n, d.channel)
    case Batching(list, reached) => ListsPending(s, list) && forall d | d in list :: d.channel in reached
    case Syncing(imported) => imported <= Listed(n, s)
    case _ => true
  }

  lemma GrantAllows(s: Stores, key: Key, senders: seq<Sender>, k: Key)
    ensures forall x :: x in Allowed(Grant(s, key, senders), k)
                        <==> x in Allowed(s, k) || (k == key && x in senders)
  {
    DedupOnce(Allowed(s, key) + senders);
  }

  /** A sync approves what it imports and leaves the other rows; a row it makes has no code. */
  lemma ImportApproves(s: Stores, imported: set<Device>, d: Device)
    ensures var rows := Import(s, imported).rows;
            if d !in imported then (d in rows <==> d in s.rows) && (d in rows ==> rows[d] == s.rows[d])
            else d in rows && rows[d] == if d in s.rows then Row(Approved, s.rows[d].code, s.rows[d].expiresAt)
                                         else Row(Approved, None, None)
  {
  }

  /** Who is on the lists after an approval: it adds the sender
      under the channel's key if the patch goes through, at the end if it is new. */
  lemma {:induction false} ApproveGrants(n: Naming, s: Stores, d: Device, reached: bool, key: Key, x: Sender)
    ensures var t, list := Approve(n, s, d, reached), Allowed(s, key);
            && (x in Allowed(t, key) <==> x in list || (reached && key == n.key(d.channel) && x == d.sender))
            && (!(reached && key == n.key(d.channel)) ==> Allowed(t, key) == list)
            && (reached && key == n.key(d.channel) ==> Once(Allowed(t, key)))
            && (reached && key == n.key(d.channel) && Once(list) ==>
                  Allowed(t, key) == if d.sender in list then list else list + [d.sender])
  {
    GrantedOne(Allowed(s, key), d.sender, x);
  }

  lemma GrantedOne(list: seq<Sender>, sender: Sender, x: Sender)
    ensures var t := Dedup(list + [sender]);
            && Once(t) && (x in t <==> x in list || x == sender)
            && (Once(list) ==> t == if sender in list then list else list + [sender])
  {
    DedupOnce(list + [sender]);
    if Once(list) { DedupSnoc(list, sender); }
  }

  lemma RevokeAllows(n: Naming, s: Stores, d: Device, e: Device)
    requires ApprovedAllowed(n, s) && AllNamed(n, s) && Named(n, d.channel)
    ensures RowAllowed(n, Revoke(n, s, d, true), e)
  {
    assert RowAllowed(n, s, e);
    WithoutMembers(Allowed(s, n.key(d.channel)), d.sender);
  }

  /** What of a list of devices belongs under one config key, in order. */
  function SendersAt(n: Naming, list: seq<Device>, key: Key): seq<Sender> {
    if list == [] then []
    else
      var last := list[|list| - 1];
      SendersAt(n, list[..|list| - 1], key) + if n.key(last.channel) == key then [last.sender] else []
  }

  function GroupsAt(n: Naming, groups: Groups, key: Key): seq<Sender> {
    if groups == [] then []
    else if n.key(groups[0].0) == key then groups[0].1 + GroupsAt(n, groups[1..], key)
    else GroupsAt(n, groups[1..], key)
  }

  lemma {:induction false} GroupsSplit(n: Naming, groups: Groups, key: Key)
    requires groups != []
    ensures GroupsAt(n, groups, key)
            == GroupsAt(n, groups[..|groups| - 1], key)
               + (if n.key(groups[|groups| - 1].0) == key then groups[|groups| - 1].1 else [])
  {
    if |groups| > 1 {
      GroupsSplit(n, groups[1..], key);
      assert groups[1..][..|groups| - 2] == groups[..|groups| - 1][1..];
    }
  }

  predicate KeyIn(n: Naming, groups: Groups, key: Key) {
    groups != [] && (n.key(groups[|groups| - 1].0) == key || KeyIn(n, groups[..|groups| - 1], key))
  }

  /** Granting groups adds, under each key, what the groups hold for it. */
  lemma {:induction false} GrantGroupsAt(n: Naming, s: Stores, groups: Groups, key: Key)
    ensures var t := GrantGroups(n, s, groups);
            && (key in t.allowFrom <==> key in s.allowFrom || KeyIn(n, groups, key))
            && Allowed(t, key) == (if KeyIn(n, groups, key) then Dedup(Allowed(s, key) + GroupsAt(n, groups, key))
                                   else Allowed(s, key))
            && (!KeyIn(n, groups, key) ==> GroupsAt(n, groups, key) == [])
  {
    if groups != [] {
      var init, last := groups[..|groups| - 1], groups[|groups| - 1];
      GrantGroupsAt(n, s, init, key);
      GroupsSplit(n, groups, key);
      var before := GroupsAt(n, init, key);
      if n.key(last.0) == key {
        if KeyIn(n, init, key) {
          DedupMore(Allowed(s, key), before, last.1);
        } else {
          assert [] + last.1 == last.1;
        }
      } else {
        assert before + [] == before;
      }
    }
  }

  lemma {:induction false} DedupMore(a: seq<Sender>, b: seq<Sender>, c: seq<Sender>)
    ensures Dedup(Dedup(a + b) + c) == Dedup(a + (b + c))
  {
    DedupTwice(a + b, c);
    assert a + b + c == a + (b + c);
  }

  // ---- Grouping keeps, channel by channel, the order of the list --------------------------------

  /** Each group has senders, and a key of its own. */
  ghost predicate GroupsApart(n: Naming, groups: Groups) {
    && (forall i | 0 <= i < |groups| :: groups[i].1 != [])
    && (forall i, j | 0 <= i < j < |groups| :: n.key(groups[i].0) != n.key(groups[j].0))
  }

  /** No other group has this channel's key. */
  ghost predicate Suits(n: Naming, groups: Groups, channel: Channel) {
    forall i | 0 <= i < |groups| && n.key(groups[i].0) == n.key(channel) :: groups[i].0 == channel
  }

  lemma {:induction false} PushAt(n: Naming, groups: Groups, channel: Channel, sender: Sender, key: Key)
    requires GroupsApart(n, groups) && Suits(n, groups, channel)
    ensures GroupsAt(n, Push(groups, channel, sender), key)
            == GroupsAt(n, groups, key) + (if n.key(channel) == key then [sender] else [])
  {
    if groups == [] {
      assert GroupsAt(n, [(channel, [sender])], key) == if n.key(channel) == key then [sender] else [];
    } else if groups[0].0 == channel {
      PushHead(n, groups, sender, key);
    } else {
      TailSuits(n, groups, channel);
      PushAt(n, groups[1..], channel, sender, key);
      GroupsCons(n, groups[0], Push(groups[1..], channel, sender), key);
      GroupsCons(n, groups[0], groups[1..], key);
      assert groups == [groups[0]] + groups[1..];
      Regroup(if n.key(groups[0].0) == key then groups[0].1 else [], GroupsAt(n, groups[1..], key),
              if n.key(channel) == key then [sender] else []);
    }
  }

  lemma TailSuits(n: Naming, groups: Groups, channel: Channel)
    requires groups != [] && GroupsApart(n, groups) && Suits(n, groups, channel)
    ensures GroupsApart(n, groups[1..]) && Suits(n, groups[1..], channel)
  {
  }

  lemma GroupsCons(n: Naming, first: (Channel, seq<Sender>), rest: Groups, key: Key)
    ensures GroupsAt(n, [first] + rest, key)
            == (if n.key(first.0) == key then first.1 else []) + GroupsAt(n, rest, key)
  {
    assert ([first] + rest)[1..] == rest;
    assert [] + GroupsAt(n, rest, key) == GroupsAt(n, rest, key);
  }

  lemma PushHead(n: Naming, groups: Groups, sender: Sender, key: Key)
    requires groups != [] && GroupsApart(n, groups)
    ensures GroupsAt(n, Push(groups, groups[0].0, sender), key)
            == GroupsAt(n, groups, key) + (if n.key(groups[0].0) == key then [sender] else [])
  {
    var rest := groups[1..];
    OthersElsewhere(n, rest, n.key(groups[0].0));
    assert Push(groups, groups[0].0, sender)[1..] == rest;
  }

  lemma {:induction false} OthersElsewhere(n: Naming, groups: Groups, key: Key)
    requires forall i | 0 <= i < |groups| :: n.key(groups[i].0) != key
    ensures GroupsAt(n, groups, key) == []
  {
    if groups != [] {
      assert forall i | 0 <= i < |groups[1..]| :: groups[1..][i] == groups[i + 1];
      OthersElsewhere(n, groups[1..], key);
    }
  }

  ghost predicate InGroups(channel: Channel, groups: Groups) {
    exists g :: g in groups && g.0 == channel
  }

  lemma {:induction false} PushChannels(groups: Groups, channel: Channel, sender: Sender)
    ensures forall g | g in Push(groups, channel, sender) :: g.0 == channel || InGroups(g.0, groups)
  {
    if groups != [] {
      PushChannels(groups[1..], channel, sender);
      assert groups == [groups[0]] + groups[1..];
      forall g | g in Push(groups, channel, sender) ensures g.0 == channel || InGroups(g.0, groups) {
        if groups[0].0 == channel {
          assert g in groups[1..] || g.0 == channel;
        } else if g in Push(groups[1..], channel, sender) && g.0 != channel {
          assert InGroups(g.0, groups[1..]);
          var h :| h in groups[1..] && h.0 == g.0;
          assert h in groups;
        }
      }
    }
  }

  lemma {:induction false} PushApart(n: Naming, groups: Groups, channel: Channel, sender: Sender)
    requires GroupsApart(n, groups) && Suits(n, groups, channel)
    ensures GroupsApart(n, Push(groups, channel, sender))
  {
    if groups != [] && groups[0].0 != channel {
      assert GroupsApart(n, groups[1..]) && Suits(n, groups[1..], channel);
      PushApart(n, groups[1..], channel, sender);
      PushChannels(groups[1..], channel, sender);
      var t := Push(groups[1..], channel, sender);
      forall i | 0 <= i < |t| ensures n.key(t[i].0) != n.key(groups[0].0) {
        assert t[i] in t;
        if t[i].0 != channel { InTail(n, groups, t[i].0); }
      }
      ApartCons(n, groups[0], t);
    }
  }

  lemma InTail(n: Naming, groups: Groups, channel: Channel)
    requires groups != [] && GroupsApart(n, groups) && InGroups(channel, groups[1..])
    ensures n.key(channel) != n.key(groups[0].0)
  {
    var g :| g in groups[1..] && g.0 == channel;
    var j :| 0 <= j < |groups[1..]| && groups[1..][j] == g;
    assert groups[j + 1] == g;
  }

  lemma ApartCons(n: Naming, first: (Channel, seq<Sender>), groups: Groups)
    requires first.1 != [] && GroupsApart(n, groups)
    requires forall i | 0 <= i < |groups| :: n.key(groups[i].0) != n.key(first.0)
    ensures GroupsApart(n, [first] + groups)
  {
  }

  /** The channels of a list have keys of their own. */
  ghost predicate ListApart(n: Naming, list: seq<Device>) {
    forall i, j | 0 <= i < |list| && 0 <= j < |list| && n.key(list[i].channel) == n.key(list[j].channel) ::
      list[i].channel == list[j].channel
  }

  /** Every group's channel is that of a device of the list. */
  ghost predicate Stems(groups: Groups, list: seq<Device>) {
    forall i | 0 <= i < |groups| :: OnList(groups[i].0, list)
  }

  ghost predicate OnList(channel: Channel, list: seq<Device>) {
    exists d :: d in list && d.channel == channel
  }

  lemma {:induction false} GroupedAt(n: Naming, list: seq<Device>, key: Key)
    requires ListApart(n, list)
    ensures GroupsApart(n, Grouped(list)) && Stems(Grouped(list), list)
    ensures GroupsAt(n, Grouped(list), key) == SendersAt(n, list, key)
  {
    if list != [] {
      var init, last := list[..|list| - 1], list[|list| - 1];
      GroupedAt(n, init, key);
      LastSuits(n, Grouped(init), list);
      PushAt(n, Grouped(init), last.channel, last.sender, key);
      PushApart(n, Grouped(init), last.channel, last.sender);
      StemsMore(Grouped(init), list);
    }
  }

  lemma LastSuits(n: Naming, groups: Groups, list: seq<Device>)
    requires list != [] && ListApart(n, list) && Stems(groups, list[..|list| - 1])
    ensures Suits(n, groups, list[|list| - 1].channel)
  {
    var init, last := list[..|list| - 1], list[|list| - 1];
    forall i | 0 <= i < |groups| && n.key(groups[i].0) == n.key(last.channel) ensures groups[i].0 == last.channel {
      assert OnList(groups[i].0, init);
      var d :| d in init && d.channel == groups[i].0;
      var j :| 0 <= j < |init| && init[j] == d;
      assert list[j] == d;
    }
  }

  lemma StemsMore(groups: Groups, list: seq<Device>)
    requires list != [] && Stems(groups, list[..|list| - 1])
    ensures Stems(Push(groups, list[|list| - 1].channel, list[|list| - 1].sender), list)
  {
    var init, last := list[..|list| - 1], list[|list| - 1];
    var t := Push(groups, last.channel, last.sender);
    PushChannels(groups, last.channel, last.sender);
    forall i | 0 <= i < |t| ensures OnList(t[i].0, list) {
      assert t[i] in t && last in list;
      if t[i].0 != last.channel {
        var g :| g in groups && g.0 == t[i].0;
        var k :| 0 <= k < |groups| && groups[k] == g;
        assert OnList(groups[k].0, init);
        var d :| d in init && d.channel == g.0;
        assert d in list;
      }
    }
  }

  lemma {:induction false} KeyHasSenders(n: Naming, groups: Groups, key: Key)
    requires GroupsApart(n, groups)
    ensures KeyIn(n, groups, key) <==> GroupsAt(n, groups, key) != []
  {
    if groups != [] {
      GroupsSplit(n, groups, key);
      KeyHasSenders(n, groups[..|groups| - 1], key);
    }
  }

  /** The devices whose channels' patches go through. */
  function Kept(list: seq<Device>, reached: set<Channel>): seq<Device> {
    if list == [] then []
    else
      var last := list[|list| - 1];
      Kept(list[..|list| - 1], reached) + if last.channel in reached then [last] else []
  }

  lemma {:induction false} KeptMembers(list: seq<Device>, reached: set<Channel>)
    ensures forall d :: d in Kept(list, reached) <==> d in list && d.channel in reached
  {
    if list != [] {
      KeptMembers(list[..|list| - 1], reached);
      assert list == list[..|list| - 1] + [list[|list| - 1]];
    }
  }

  lemma {:induction false} TakenCons(groups: Groups, reached: set<Channel>)
    requires groups != []
    ensures Taken(groups, reached) == (if groups[0].0 in reached then [groups[0]] else []) + Taken(groups[1..], reached)
  {
    if |groups| > 1 {
      TakenCons(groups[..|groups| - 1], reached);
      assert groups[..|groups| - 1][1..] == groups[1..][..|groups| - 2];
    }
  }

  function PushIf(groups: Groups, channel: Channel, sender: Sender, reached: set<Channel>): Groups {
    if channel in reached then Push(groups, channel, sender) else groups
  }

  lemma {:induction false} TakenPushHead(groups: Groups, sender: Sender, reached: set<Channel>)
    requires groups != []
    ensures Taken(Push(groups, groups[0].0, sender), reached)
            == PushIf(Taken(groups, reached), groups[0].0, sender, reached)
  {
    var pushed := Push(groups, groups[0].0, sender);
    assert pushed[1..] == groups[1..];
    TakenCons(pushed, reached);
    TakenCons(groups, reached);
    if groups[0].0 in reached {
      assert Taken(groups, reached)[1..] == Taken(groups[1..], reached);
    }
  }

  lemma PushBehind(first: (Channel, seq<Sender>), rest: Groups, channel: Channel, sender: Sender)
    requires first.0 != channel
    ensures Push([first] + rest, channel, sender) == [first] + Push(rest, channel, sender)
  {
    assert ([first] + rest)[1..] == rest;
  }

  lemma {:induction false} TakenPush(groups: Groups, channel: Channel, sender: Sender, reached: set<Channel>)
    ensures Taken(Push(groups, channel, sender), reached) == PushIf(Taken(groups, reached), channel, sender, reached)
  {
    if groups == [] {
      TakenCons([(channel, [sender])], reached);
      assert [(channel, [sender])][1..] == [];
    } else if groups[0].0 == channel {
      TakenPushHead(groups, sender, reached);
    } else {
      var rest := groups[1..];
      assert groups == [groups[0]] + rest;
      PushBehind(groups[0], rest, channel, sender);
      TakenPush(rest, channel, sender, reached);
      TakenCons(groups, reached);
      TakenCons([groups[0]] + Push(rest, channel, sender), reached);
      var pushed := [groups[0]] + Push(rest, channel, sender);
      assert Push(groups, channel, sender) == pushed && pushed[0] == groups[0];
      assert pushed[1..] == Push(rest, channel, sender);
      if groups[0].0 in reached {
        PushBehind(groups[0], Taken(rest, reached), channel, sender);
      } else {
        assert Taken(groups, reached) == Taken(rest, reached) && Taken(pushed, reached) == Taken(pushed[1..], reached);
      }
    }
  }

  /** Grouping and then dropping channels is dropping their devices and then grouping. */
  lemma {:induction false} TakenGrouped(list: seq<Device>, reached: set<Channel>)
    ensures Taken(Grouped(list), reached) == Grouped(Kept(list, reached))
  {
    if list != [] {
      var init, last := list[..|list| - 1], list[|list| - 1];
      TakenGrouped(init, reached);
      TakenPush(Grouped(init), last.channel, last.sender, reached);
      if last.channel in reached {
        assert Kept(list, reached)[..|Kept(list, reached)| - 1] == Kept(init, reached);
      } else {
        assert Kept(list, reached) == Kept(init, reached);
      }
    }
  }

  // ---- A batch is its approvals, one by one ------------------------------------------------------

  function Devices(list: seq<Device>): set<Device> {
    set d | d in list
  }

  lemma {:induction false} ApproveEachRows(n: Naming, s: Stores, list: seq<Device>, reached: set<Channel>)
    ensures ApproveEach(n, s, list, reached).rows == MarkAll(s.rows, Devices(list), Approved)
  {
    if list != [] {
      var init, last := list[..|list| - 1], list[|list| - 1];
      ApproveEachRows(n, s, init, reached);
      MarkMore(s.rows, Devices(init), last, Approved);
      assert Devices(list) == Devices(init) + {last};
    }
  }

  /** What a list `senders` adds under a key. */
  ghost predicate Adds(s: Stores, t: Stores, key: Key, senders: seq<Sender>) {
    && (key in t.allowFrom <==> key in s.allowFrom || senders != [])
    && Allowed(t, key) == (if senders != [] then Dedup(Allowed(s, key) + senders) else Allowed(s, key))
  }

  lemma AddsOne(s: Stores, t: Stores, key: Key, senders: seq<Sender>, x: Sender)
    requires Adds(s, t, key, senders)
    ensures Adds(s, Grant(t, key, [x]), key, senders + [x])
  {
    assert Allowed(s, key) + senders + [x] == Allowed(s, key) + (senders + [x]);
    if senders != [] {
      DedupTwice(Allowed(s, key) + senders, [x]);
    } else {
      assert senders + [x] == [x];
    }
  }

  lemma KeptSenders(n: Naming, kept: seq<Device>, last: Device, key: Key)
    ensures SendersAt(n, kept + [last], key)
            == if n.key(last.channel) == key then SendersAt(n, kept, key) + [last.sender] else SendersAt(n, kept, key)
  {
    assert (kept + [last])[..|kept|] == kept;
  }

  lemma {:induction false} ApproveEachAt(n: Naming, s: Stores, list: seq<Device>, reached: set<Channel>, key: Key)
    ensures Adds(s, ApproveEach(n, s, list, reached), key, SendersAt(n, Kept(list, reached), key))
  {
    if list != [] {
      var init, last := list[..|list| - 1], list[|list| - 1];
      var kept := Kept(init, reached);
      ApproveEachAt(n, s, init, reached, key);
      var t := Mark(ApproveEach(n, s, init, reached), last, Approved);
      if last.channel in reached {
        KeptSenders(n, kept, last, key);
        assert Kept(list, reached) == kept + [last];
        if n.key(last.channel) == key {
          AddsOne(s, t, key, SendersAt(n, kept, key), last.sender);
        }
      } else {
        assert Kept(list, reached) == kept;
      }
    }
  }

  ghost predicate AllReached(list: seq<Device>, reached: set<Channel>) {
    forall d | d in list :: d.channel in reached
  }

  lemma BatchAt(n: Naming, s: Stores, list: seq<Device>, reached: set<Channel>, key: Key)
    requires ListApart(n, Kept(list, reached))
    ensures Adds(s, BatchApprove(n, s, list, reached), key, SendersAt(n, Kept(list, reached), key))
  {
    var marked, kept := s.(rows := MarkAll(s.rows, PendingAll(s), Approved)), Kept(list, reached);
    TakenGrouped(list, reached);
    GroupedAt(n, kept, key);
    KeyHasSenders(n, Grouped(kept), key);
    GrantGroupsAt(n, marked, Grouped(kept), key);
  }

  /** `batchApproveAll` leaves the same rows and the same `allowFrom` lists, order
      included, as approving every pending row by itself, in the order of the list,
      whichever channels' patches go through; those channels have keys of their own. */
  lemma {:induction false} BatchIsEach(n: Naming, s: Stores, list: seq<Device>, reached: set<Channel>)
    requires ListsPending(s, list) && ListApart(n, Kept(list, reached))
    ensures BatchApprove(n, s, list, reached) == ApproveEach(n, s, list, reached)
  {
    var t, u := BatchApprove(n, s, list, reached), ApproveEach(n, s, list, reached);
    GroupsKeepRows(n, s.(rows := MarkAll(s.rows, PendingAll(s), Approved)), Taken(Grouped(list), reached));
    ApproveEachRows(n, s, list, reached);
    assert Devices(list) == PendingAll(s);
    forall key ensures (key in t.allowFrom <==> key in u.allowFrom) && Allowed(t, key) == Allowed(u, key) {
      BatchAt(n, s, list, reached, key);
      ApproveEachAt(n, s, list, reached, key);
    }
    assert t.allowFrom == u.allowFrom by {
      forall key | key in t.allowFrom ensures t.allowFrom[key] == u.allowFrom[key] {
        assert Allowed(t, key) == Allowed(u, key);
      }
    }
  }

  ghost predicate KeysApart(n: Naming, channels: set<Channel>) {
    forall a, b | a in channels && b in channels && n.key(a) == n.key(b) :: a == b
  }

  /** If the patches of these channels go through, a batch is always its approvals, one by
      one. */
  ghost predicate BatchFaithful(n: Naming, channels: set<Channel>) {
    forall s, list | ListsPending(s, list) ::
      BatchApprove(n, s, list, channels) == ApproveEach(n, s, list, channels)
  }

  /** That is so if and only if no two of the channels share a config key. */
  lemma {:induction false} BatchExact(n: Naming, channels: set<Channel>)
    ensures BatchFaithful(n, channels) <==> KeysApart(n, channels)
  {
    if KeysApart(n, channels) {
      forall s, list | ListsPending(s, list)
        ensures BatchApprove(n, s, list, channels) == ApproveEach(n, s, list, channels)
      {
        KeptMembers(list, channels);
        assert forall i | 0 <= i < |Kept(list, channels)| :: Kept(list, channels)[i] in Kept(list, channels);
        BatchIsEach(n, s, list, channels);
      }
    } else {
      var a, b :| a in channels && b in channels && n.key(a) == n.key(b) && a != b;
      BatchUnfaithful(n, channels, a, b);
    }
  }

  lemma BatchUnfaithful(n: Naming, channels: set<Channel>, a: Channel, b: Channel)
    requires a in channels && b in channels && n.key(a) == n.key(b) && a != b
    ensures !BatchFaithful(n, channels)
  {
    var list := Trio(a, b, "x", "y", "z");
    var s := ThreePending(list);
    BatchReorders(n, s, a, b, "x", "y", "z", channels);
  }

  /** Three devices, the middle one on another channel. */
  function Trio(a: Channel, b: Channel, x: Sender, y: Sender, z: Sender): seq<Device> {
    [Device(a, x), Device(b, y), Device(a, z)]
  }

  lemma ThreePending(list: seq<Device>) returns (s: Stores)
    requires |list| == 3 && list[0] != list[1] && list[1] != list[2] && list[0] != list[2]
    ensures ListsPending(s, list) && s.allowFrom == map[]
  {
    var row := Row(Pending, None, None);
    s := Stores(map[list[0] := row, list[1] := row, list[2] := row], map[]);
  }

  /** Two channels under one key: grouping changes the order. */
  lemma {:induction false} BatchReorders(n: Naming, s: Stores, a: Channel, b: Channel, x: Sender, y: Sender, z: Sender,
                                         reached: set<Channel>)
    requires a != b && n.key(a) == n.key(b) && x != y && y != z && x != z && Allowed(s, n.key(a)) == []
    requires a in reached && b in reached
    ensures var list := Trio(a, b, x, y, z);
            && Allowed(ApproveEach(n, s, list, reached), n.key(a)) == [x, y, z]
            && Allowed(BatchApprove(n, s, list, reached), n.key(a)) == [x, z, y]
  {
    TrioKept(a, b, x, y, z, reached);
    EachInOrder(n, s, Trio(a, b, x, y, z), reached, n.key(a));
    ThreeGrouped(a, b, x, y, z);
    TakenGrouped(Trio(a, b, x, y, z), reached);
    GroupsReordered(n, s.(rows := MarkAll(s.rows, PendingAll(s), Approved)), [(a, [x, z]), (b, [y])], x, z, y);
  }

  lemma TrioKept(a: Channel, b: Channel, x: Sender, y: Sender, z: Sender, reached: set<Channel>)
    requires a in reached && b in reached
    ensures Kept(Trio(a, b, x, y, z), reached) == Trio(a, b, x, y, z)
  {
    var trio := Trio(a, b, x, y, z);
    assert trio[..2][..1] == trio[..1] && trio[..1][..0] == [];
    assert Kept(trio[..1], reached) == trio[..1];
    assert Kept(trio[..2], reached) == trio[..2];
  }

  lemma SendersOfThree(n: Naming, list: seq<Device>, key: Key)
    requires |list| == 3 && forall i | 0 <= i < 3 :: n.key(list[i].channel) == key
    ensures SendersAt(n, list, key) == [list[0].sender, list[1].sender, list[2].sender]
  {
    SendersSnoc(n, [], list[0], key);
    SendersSnoc(n, [list[0]], list[1], key);
    SendersSnoc(n, [list[0], list[1]], list[2], key);
    assert [] + [list[0]] == [list[0]] && [list[0]] + [list[1]] == [list[0], list[1]];
    assert [list[0], list[1]] + [list[2]] == list;
  }

  lemma EachInOrder(n: Naming, s: Stores, list: seq<Device>, reached: set<Channel>, key: Key)
    requires Kept(list, reached) == list && |list| == 3 && Allowed(s, key) == []
    requires forall i | 0 <= i < 3 :: n.key(list[i].channel) == key
    requires list[0].sender != list[1].sender && list[1].sender != list[2].sender && list[0].sender != list[2].sender
    ensures Allowed(ApproveEach(n, s, list, reached), key) == [list[0].sender, list[1].sender, list[2].sender]
  {
    SendersOfThree(n, list, key);
    ApproveEachAt(n, s, list, reached, key);
    DedupDistinct(list[0].sender, list[1].sender, list[2].sender);
  }

  lemma ThreeGrouped(a: Channel, b: Channel, x: Sender, y: Sender, z: Sender)
    requires a != b
    ensures Grouped(Trio(a, b, x, y, z)) == [(a, [x, z]), (b, [y])]
  {
    GroupedSnoc([], Device(a, x));
    GroupedSnoc([Device(a, x)], Device(b, y));
    GroupedSnoc([Device(a, x), Device(b, y)], Device(a, z));
    assert [] + [Device(a, x)] == [Device(a, x)] && [Device(a, x)] + [Device(b, y)] == [Device(a, x), Device(b, y)];
    assert [Device(a, x), Device(b, y)] + [Device(a, z)] == Trio(a, b, x, y, z);
    PushTwo(a, b, x, y, z);
  }

  lemma GroupedSnoc(list: seq<Device>, d: Device)
    ensures Grouped(list + [d]) == Push(Grouped(list), d.channel, d.sender)
  {
    assert (list + [d])[..|list|] == list;
  }

  lemma PushTwo(a: Channel, b: Channel, x: Sender, y: Sender, z: Sender)
    requires a != b
    ensures Push(Push([(a, [x])], b, y), a, z) == [(a, [x, z]), (b, [y])]
  {
    var one, two := [(a, [x])], [(a, [x]), (b, [y])];
    assert one[1..] == [] && [one[0]] + [(b, [y])] == two;
    assert two[1..] == [(b, [y])] && [x] + [z] == [x, z];
  }

  lemma SendersSnoc(n: Naming, list: seq<Device>, d: Device, key: Key)
    requires n.key(d.channel) == key
    ensures SendersAt(n, list + [d], key) == SendersAt(n, list, key) + [d.sender]
  {
    assert (list + [d])[..|list|] == list;
  }

  lemma GroupsReordered(n: Naming, s: Stores, groups: Groups, x: Sender, z: Sender, y: Sender)
    requires |groups| == 2 && groups[0].1 == [x, z] && groups[1].1 == [y] && n.key(groups[0].0) == n.key(groups[1].0)
    requires x != y && y != z && x != z && Allowed(s, n.key(groups[0].0)) == []
    ensures Allowed(GrantGroups(n, s, groups), n.key(groups[0].0)) == [x, z, y]
  {
    var key := n.key(groups[0].0);
    GrantGroupsAt(n, s, groups, key);
    assert groups[1..][1..] == [] && groups[1..][0] == groups[1];
    assert GroupsAt(n, groups[1..], key) == [y];
    assert [x, z] + [y] == [x, z, y];
    DedupDistinct(x, z, y);
  }

  lemma DedupDistinct(x: Sender, y: Sender, z: Sender)
    requires x != y && y != z && x != z
    ensures Dedup([] + [x, y, z]) == [x, y, z]
  {
    var list := [x, y, z];
    assert [] + list == list && list[..2] == [x, y] && [x, y][..1] == [x] && [x][..0] == [];
    assert Dedup([x]) == [x] && Dedup([x, y]) == [x, y];
  }

  // ---- The gateway allows whom the database approves -----------------------------------------------

  lemma {:induction false} ApproveEachAllows(n: Naming, s: Stores, list: seq<Device>, reached: set<Channel>)
    requires ApprovedAllowed(n, s) && AllReached(list, reached)
    ensures ApprovedAllowed(n, ApproveEach(n, s, list, reached))
  {
    if list != [] {
      var init, last := list[..|list| - 1], list[|list| - 1];
      assert list == init + [last];
      ApproveEachAllows(n, s, init, reached);
      ApproveAllows(n, ApproveEach(n, s, init, reached), last);
    }
  }

  lemma ApproveAllows(n: Naming, s: Stores, d: Device)
    requires ApprovedAllowed(n, s)
    ensures ApprovedAllowed(n, Approve(n, s, d, true))
  {
    forall e ensures RowAllowed(n, Approve(n, s, d, true), e) {
      assert RowAllowed(n, s, e);
      GrantAllows(Mark(s, d, Approved), n.key(d.channel), [d.sender], n.key(e.channel));
    }
  }

  lemma SyncAllows(n: Naming, s: Stores, imported: set<Device>)
    requires ApprovedAllowed(n, s) && Inverse(n) && imported <= Listed(n, s)
    ensures ApprovedAllowed(n, Import(s, imported))
  {
    forall e ensures RowAllowed(n, Import(s, imported), e) {
      assert RowAllowed(n, s, e);
    }
  }

  ghost predicate InStep(n: Naming, s: Stores) {
    ApprovedAllowed(n, s) && AllNamed(n, s)
  }

  lemma PendingApart(n: Naming, s: Stores, list: seq<Device>, reached: set<Channel>)
    requires Inverse(n) && AllNamed(n, s) && ListsPending(s, list)
    ensures ListApart(n, Kept(list, reached))
  {
    KeptMembers(list, reached);
    var kept := Kept(list, reached);
    forall i | 0 <= i < |kept| ensures Named(n, kept[i].channel) {
      assert kept[i] in kept && kept[i] in PendingAll(s);
    }
  }

  lemma StepAllows(n: Naming, s: Stores, op: Op)
    requires Inverse(n) && InStep(n, s) && Proper(n, s, op)
    ensures ApprovedAllowed(n, Do(n, s, op))
  {
    match op
    case Approving(d, _) => ApproveAllows(n, s, d);
    case Revoking(d, _) =>
      forall e ensures RowAllowed(n, Do(n, s, op), e) { RevokeAllows(n, s, d, e); }
    case Batching(list, reached) =>
      PendingApart(n, s, list, reached);
      BatchIsEach(n, s, list, reached);
      ApproveEachAllows(n, s, list, reached);
    case Syncing(imported) => SyncAllows(n, s, imported);
    case _ =>
      forall e ensures RowAllowed(n, Do(n, s, op), e) { assert RowAllowed(n, s, e); }
  }

  lemma StepNamed(n: Naming, s: Stores, op: Op)
    requires Inverse(n) && AllNamed(n, s) && Proper(n, s, op)
    ensures AllNamed(n, Do(n, s, op))
  {
    if op.Batching? {
      GroupsKeepRows(n, s.(rows := MarkAll(s.rows, PendingAll(s), Approved)), Taken(Grouped(op.list), op.channels));
    }
  }

  ghost predicate ProperRun(n: Naming, s: Stores, ops: seq<Op>) {
    ops == []
    || (ProperRun(n, s, ops[..|ops| - 1]) && Proper(n, After(n, s, ops[..|ops| - 1]), ops[|ops| - 1]))
  }

  /** After any operations whose patches go through, every approved sender is in its
      channel's `allowFrom`. */
  lemma {:induction false} ApprovedStayAllowed(n: Naming, s: Stores, ops: seq<Op>)
    requires Inverse(n) && InStep(n, s) && ProperRun(n, s, ops)
    ensures InStep(n, After(n, s, ops))
  {
    if ops != [] {
      ApprovedStayAllowed(n, s, ops[..|ops| - 1]);
      StepAllows(n, After(n, s, ops[..|ops| - 1]), ops[|ops| - 1]);
      StepNamed(n, After(n, s, ops[..|ops| - 1]), ops[|ops| - 1]);
    }
  }

  /** A revoke shuts its sender out, and nobody else on any channel. */
  lemma {:induction false} RevokeShutsOut(n: Naming, s: Stores, d: Device, key: Key, sender: Sender)
    requires Has(s, d, Approved)
    ensures var t := Revoke(n, s, d, true);
            && Has(t, d, Revoked)
            && (sender in Allowed(t, key) <==>
                  sender in Allowed(s, key) && !(key == n.key(d.channel) && sender == d.sender))
  {
    WithoutMembers(Allowed(s, n.key(d.channel)), d.sender);
  }

  /** Another approved row of the same sender, on a channel type with the same key. */
  predicate Entangled(n: Naming, s: Stores, d: Device, e: Device) {
    Has(s, e, Approved) && e != d && e.sender == d.sender && n.key(e.channel) == n.key(d.channel)
  }

  /** A revoke takes the gateway out of step exactly when the same sender is approved on
      another channel type with the same config key. */
  lemma {:induction false} RevokeInStep(n: Naming, s: Stores, d: Device)
    requires ApprovedAllowed(n, s) && Has(s, d, Approved)
    ensures ApprovedAllowed(n, Revoke(n, s, d, true))
            <==> !exists e :: Entangled(n, s, d, e)
  {
    var t := Revoke(n, s, d, true);
    WithoutMembers(Allowed(s, n.key(d.channel)), d.sender);
    forall e ensures RowAllowed(n, t, e) <==> !Entangled(n, s, d, e) {
      assert RowAllowed(n, s, e);
    }
  }

  /** After a sync a channel's approved senders are exactly the allowed ones, if and only
      if every approved one was allowed before: a sync never takes an approval back. */
  lemma {:induction false} SyncAgrees(n: Naming, s: Stores, channel: Channel)
    requires Inverse(n) && Named(n, channel)
    ensures (forall x :: Has(SyncFromGateway(n, s), Device(channel, x), Approved)
                         <==> x in Allowed(SyncFromGateway(n, s), n.key(channel)))
            <==> (forall x :: RowAllowed(n, s, Device(channel, x)))
  {
    var t := SyncFromGateway(n, s);
    forall x ensures Has(t, Device(channel, x), Approved)
                     <==> x in Allowed(s, n.key(channel)) || Has(s, Device(channel, x), Approved)
    {
      ListedHere(n, s, channel, x);
    }
    forall x ensures (Has(t, Device(channel, x), Approved) <==> x in Allowed(t, n.key(channel)))
                     <==> RowAllowed(n, s, Device(channel, x))
    {
    }
  }

  lemma ListedHere(n: Naming, s: Stores, channel: Channel, x: Sender)
    requires Inverse(n) && Named(n, channel)
    ensures Device(channel, x) in Listed(n, s) <==> x in Allowed(s, n.key(channel))
  {
    if x in Allowed(s, n.key(channel)) {
      var key := n.key(channel);
      assert key in s.allowFrom && x in s.allowFrom[key] && n.channel(key) == Some(channel);
      assert Device(n.channel(key).value, x) in Listed(n, s);
    }
  }

  // ---- Who comes back ------------------------------------------------------------------------

  /** After a sync a device of a named channel is approved if and only if it was before or
      its sender is allowed, whatever its row said. */
  lemma {:induction false} SyncApproves(n: Naming, s: Stores, d: Device)
    requires Inverse(n) && Named(n, d.channel)
    ensures Has(SyncFromGateway(n, s), d, Approved) <==> Has(s, d, Approved) || d.sender in Allowed(s, n.key(d.channel))
  {
    ListedHere(n, s, d.channel, d.sender);
  }

  /** So a rejected device is approved again by the next sync, if and only if its sender
      was allowed when it was rejected: rejecting does not shut anybody out. */
  lemma {:induction false} RejectedComesBack(n: Naming, s: Stores, d: Device)
    requires Inverse(n) && Named(n, d.channel) && d in s.rows
    ensures Has(Reject(s, d), d, Rejected)
    ensures Has(SyncFromGateway(n, Reject(s, d)), d, Approved) <==> d.sender in Allowed(s, n.key(d.channel))
  {
    SyncApproves(n, Reject(s, d), d);
  }

  /** And a revoked one if and only if the patch of the revoke failed, and its sender was
      allowed. */
  lemma {:induction false} RevokedComesBack(n: Naming, s: Stores, d: Device, reached: bool)
    requires Inverse(n) && Named(n, d.channel) && Has(s, d, Approved)
    ensures Has(SyncFromGateway(n, Revoke(n, s, d, reached)), d, Approved)
            <==> !reached && d.sender in Allowed(s, n.key(d.channel))
  {
    SyncApproves(n, Revoke(n, s, d, reached), d);
    WithoutMembers(Allowed(s, n.key(d.channel)), d.sender);
  }

  // ---- The source's own channels --------------------------------------------------------------

  /** Requests name known channels only.  Their keys are apart, so that no revoke takes
      another row's sender along. */
  lemma {:induction false} KnownNotEntangled(s: Stores, d: Device, e: Device)
    requires Known(d.channel) && Known(e.channel)
    ensures !Entangled(SOURCE_NAMING, s, d, e)
  {
    SourceNaming();
    assert Named(SOURCE_NAMING, d.channel) && Named(SOURCE_NAMING, e.channel);
  }

  /** With rows on known channels, every revoke that goes through stays in step. */
  lemma {:induction false} KnownRevokeInStep(s: Stores, d: Device)
    requires ApprovedAllowed(SOURCE_NAMING, s) && Has(s, d, Approved) && forall e | e in s.rows :: Known(e.channel)
    ensures ApprovedAllowed(SOURCE_NAMING, Revoke(SOURCE_NAMING, s, d, true))
  {
    forall e ensures !Entangled(SOURCE_NAMING, s, d, e) {
      if e in s.rows { KnownNotEntangled(s, d, e); }
    }
    RevokeInStep(SOURCE_NAMING, s, d);
  }

  /** With rows on known channels, every batch is its approvals, whichever patches go
      through. */
  lemma {:induction false} KnownBatchIsEach(s: Stores, list: seq<Device>, reached: set<Channel>)
    requires ListsPending(s, list) && forall e | e in s.rows :: Known(e.channel)
    ensures BatchApprove(SOURCE_NAMING, s, list, reached) == ApproveEach(SOURCE_NAMING, s, list, reached)
  {
    SourceNaming();
    PendingApart(SOURCE_NAMING, s, list, reached);
    BatchIsEach(SOURCE_NAMING, s, list, reached);
  }

  /** From empty stores, after any operations on known channels whose patches go through,
      a complete sync leaves exactly the allowed senders of a known channel approved. */
  lemma {:induction false} SyncedFromEmpty(ops: seq<Op>, channel: Channel, x: Sender)
    requires ProperRun(SOURCE_NAMING, Stores(map[], map[]), ops) && Known(channel)
    ensures var t := SyncFromGateway(SOURCE_NAMING, After(SOURCE_NAMING, Stores(map[], map[]), ops));
            Has(t, Device(channel, x), Approved) <==> x in Allowed(t, SOURCE_NAMING.key(channel))
  {
    SourceNaming();
    assert Named(SOURCE_NAMING, channel);
    ApprovedStayAllowed(SOURCE_NAMING, Stores(map[], map[]), ops);
    var s := After(SOURCE_NAMING, Stores(map[], map[]), ops);
    assert RowAllowed(SOURCE_NAMING, s, Device(channel, x));
    SyncApproves(SOURCE_NAMING, s, Device(channel, x));
  }

  /** The fallback of the key table puts the unknown channel type "line", which no request
      may name, under the key of the known "LINE". */
  lemma SharedKey()
    ensures SOURCE_NAMING.key("line") == SOURCE_NAMING.key("LINE") && !Named(SOURCE_NAMING, "line")
  {
    assert ToLowerCase("line"[1..][1..][1..]) == "e" && ToLowerCase("line"[1..][1..]) == "ne";
    assert ToLowerCase("line"[1..]) == "ine" && ToLowerCase("line") == "line";
  }
}
