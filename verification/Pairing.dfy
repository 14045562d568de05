/** Device pairing of one bot instance: the pairing rows of the database and the
    `allowFrom` lists of the gateway's config
    (apps/api/src/pairing/pairing.service.ts). */
module Pairing {
  import opened Options

  type Channel = string
  type Key = string
  type Sender = string

  datatype PairingState = Pending | Approved | Rejected | Revoked | Expired

  datatype Device = Device(channel: Channel, sender: Sender)

  datatype Row = Row(state: PairingState, code: Option<string>, expiresAt: Option<int>)

  /** The two stores.  A config key without an `allowFrom` list reads as an empty one. */
  datatype Stores = Stores(rows: map<Device, Row>, allowFrom: map<Key, seq<Sender>>)

  const MAX_PENDING_PER_CHANNEL := 3

  // ---- Channel types and config keys ------------------------------------------------------

  function LowerChar(c: char): char {
    if 'A' <= c <= 'Z' then (c as int + 32) as char else c
  }

  function ToLowerCase(s: string): string {
    if s == "" then "" else [LowerChar(s[0])] + ToLowerCase(s[1..])
  }

  /** A letter in lower case, anything else as it is. */
  predicate Lowers(c: char, d: char) {
    if 'A' <= c <= 'Z' then d as int == c as int + 32 else d == c
  }

  function ConfigKey(channel: Channel): Key {
    if channel == "WHATSAPP" then "whatsapp"
    else if channel == "TELEGRAM" then "telegram"
    else if channel == "DISCORD" then "discord"
    else if channel == "SLACK" then "slack"
    else if channel == "SIGNAL" then "signal"
    else if channel == "IMESSAGE" then "imessage"
    else if channel == "MATTERMOST" then "mattermost"
    else if channel == "GOOGLE_CHAT" then "google-chat"
    else if channel == "MS_TEAMS" then "ms-teams"
    else if channel == "LINE" then "line"
    else if channel == "MATRIX" then "matrix"
    else ToLowerCase(channel)
  }

  function ChannelOf(key: Key): Option<Channel> {
    if key == "whatsapp" then Some("WHATSAPP")
    else if key == "telegram" then Some("TELEGRAM")
    else if key == "discord" then Some("DISCORD")
    else if key == "slack" then Some("SLACK")
    else if key == "signal" then Some("SIGNAL")
    else if key == "imessage" then Some("IMESSAGE")
    else if key == "mattermost" then Some("MATTERMOST")
    else if key == "google-chat" then Some("GOOGLE_CHAT")
    else if key == "ms-teams" then Some("MS_TEAMS")
    else if key == "line" then Some("LINE")
    else if key == "matrix" then Some("MATRIX")
    else None
  }

  /** The channel types a request may name. */
  predicate Known(channel: Channel) {
    || channel == "WHATSAPP"
    || channel == "TELEGRAM"
    || channel == "DISCORD"
    || channel == "SLACK"
    || channel == "SIGNAL"
    || channel == "IMESSAGE"
    || channel == "MATTERMOST"
    || channel == "GOOGLE_CHAT"
    || channel == "MS_TEAMS"
    || channel == "LINE"
    || channel == "MATRIX"
  }

  /** On the known types the two tables are inverse to each other. */
  lemma {:induction false} KnownKeys(channel: Channel)
    ensures Known(channel) <==> ChannelOf(ConfigKey(channel)) == Some(channel)
  {
  }

  lemma {:induction false} LowerAt(s: string, i: nat)
    requires i < |s|
    ensures |ToLowerCase(s)| == |s| && Lowers(s[i], ToLowerCase(s)[i])
  {
    if i > 0 {
      LowerAt(s[1..], i - 1);
    } else if |s| > 1 {
      LowerAt(s[1..], 0);
    }
  }

  /** How config keys are spelled: the channel type in lower case, and with dashes for
      underscores if it is a known one. */
  lemma {:induction false} KeySpelled(channel: Channel, i: nat)
    requires i < |channel|
    ensures |ConfigKey(channel)| == |channel|
    ensures var c, d := channel[i], ConfigKey(channel)[i];
            if Known(channel) && c == '_' then d == '-' else Lowers(c, d)
  {
    if Known(channel) {
      if |channel| <= 7 { ShortSpelled(channel, i); } else { LongSpelled(channel, i); }
    } else {
      LowerAt(channel, i);
    }
  }

  lemma {:induction false} ShortSpelled(channel: Channel, i: nat)
    requires i < |channel| <= 7 && Known(channel)
    ensures |ConfigKey(channel)| == |channel| && Lowers(channel[i], ConfigKey(channel)[i])
  {
  }

  lemma {:induction false} LongSpelled(channel: Channel, i: nat)
    requires i < |channel| && |channel| > 7 && Known(channel)
    ensures |ConfigKey(channel)| == |channel|
    ensures if channel[i] == '_' then ConfigKey(channel)[i] == '-' else Lowers(channel[i], ConfigKey(channel)[i])
  {
  }

  lemma KeysBack(key: Key)
    requires ChannelOf(key).Some?
    ensures ConfigKey(ChannelOf(key).value) == key
  {
  }

  /** A naming of channels in the config, and its inverse where there is one. */
  datatype Naming = Naming(key: Channel -> Key, channel: Key -> Option<Channel>)

  const SOURCE_NAMING := Naming(channel => ConfigKey(channel), key => ChannelOf(key))

  ghost predicate Inverse(n: Naming) {
    forall key :: n.channel(key).Some? ==> n.key(n.channel(key).value) == key
  }

  predicate Named(n: Naming, channel: Channel) {
    n.channel(n.key(channel)) == Some(channel)
  }

  /** Of the source's own naming: the named channels are the known ones. */
  lemma {:induction false} SourceNaming()
    ensures Inverse(SOURCE_NAMING) && forall channel :: Named(SOURCE_NAMING, channel) <==> Known(channel)
  {
    forall channel ensures Named(SOURCE_NAMING, channel) <==> Known(channel) {
      KnownKeys(channel);
    }
    forall key | SOURCE_NAMING.channel(key).Some?
      ensures SOURCE_NAMING.key(SOURCE_NAMING.channel(key).value) == key
    {
      KeysBack(key);
    }
  }

  // ---- Operations on the stores -----------------------------------------------------------

  function Allowed(s: Stores, key: Key): seq<Sender> {
    if key in s.allowFrom then s.allowFrom[key] else []
  }

  /** `[...new Set(list)]`: first occurrences, in order. */
  function Dedup(list: seq<Sender>): seq<Sender> {
    if list == [] then []
    else
      var init, last := list[..|list| - 1], list[|list| - 1];
      if last in init then Dedup(init) else Dedup(init) + [last]
  }

  /** No sender is listed twice. */
  ghost predicate Once(list: seq<Sender>) {
    forall i, j | 0 <= i < j < |list| :: list[i] != list[j]
  }

  /** Each once, and in a list without repetitions whatever is new comes at the end. */
  lemma {:induction false} DedupOnce(list: seq<Sender>)
    ensures Once(Dedup(list)) && (forall x :: x in Dedup(list) <==> x in list)
    ensures Once(list) ==> Dedup(list) == list
  {
    if list != [] {
      var init, last := list[..|list| - 1], list[|list| - 1];
      DedupOnce(init);
      assert list == init + [last];
    }
  }

  lemma {:induction false} DedupSnoc(list: seq<Sender>, sender: Sender)
    requires Once(list)
    ensures Dedup(list + [sender]) == if sender in list then list else list + [sender]
  {
    assert (list + [sender])[..|list|] == list;
    DedupOnce(list);
  }

  function Grant(s: Stores, key: Key, senders: seq<Sender>): Stores {
    s.(allowFrom := s.allowFrom[key := Dedup(Allowed(s, key) + senders)])
  }

  function Without(list: seq<Sender>, sender: Sender): seq<Sender> {
    if list == [] then []
    else
      var rest := Without(list[..|list| - 1], sender);
      if list[|list| - 1] == sender then rest else rest + [list[|list| - 1]]
  }

  lemma {:induction false} WithoutMembers(list: seq<Sender>, sender: Sender)
    ensures forall x :: x in Without(list, sender) <==> x in list && x != sender
  {
    if list != [] {
      WithoutMembers(list[..|list| - 1], sender);
      assert list == list[..|list| - 1] + [list[|list| - 1]];
    }
  }

  function Withdraw(s: Stores, key: Key, sender: Sender): Stores {
    s.(allowFrom := s.allowFrom[key := Without(Allowed(s, key), sender)])
  }

  function RowOf(rows: map<Device, Row>, d: Device): Row {
    if d in rows then rows[d] else Row(Pending, None, None)
  }

  function MarkAll(rows: map<Device, Row>, devices: set<Device>, state: PairingState): map<Device, Row> {
    rows + map d | d in devices :: RowOf(rows, d).(state := state)
  }

  function Mark(s: Stores, d: Device, state: PairingState): Stores {
    s.(rows := s.rows[d := RowOf(s.rows, d).(state := state)])
  }

  predicate Has(s: Stores, d: Device, state: PairingState) {
    d in s.rows && s.rows[d].state == state
  }

  function PendingOn(s: Stores, channel: Channel): set<Device> {
    set d | d in s.rows && d.channel == channel && s.rows[d].state == Pending
  }

  function PendingAll(s: Stores): set<Device> {
    set d | d in s.rows && s.rows[d].state == Pending
  }

  /** `reached` says whether the config patch goes through; a failure is only logged. */
  function Approve(n: Naming, s: Stores, d: Device, reached: bool): Stores {
    var t := Mark(s, d, Approved);
    if reached then Grant(t, n.key(d.channel), [d.sender]) else t
  }

  function Reject(s: Stores, d: Device): Stores {
    if d in s.rows then Mark(s, d, Rejected) else s
  }

  function Revoke(n: Naming, s: Stores, d: Device, reached: bool): Stores {
    if !Has(s, d, Approved) then s
    else
      var t := Mark(s, d, Revoked);
      if reached then Withdraw(t, n.key(d.channel), d.sender) else t
  }

  function CreatePending(s: Stores, d: Device, code: string, expiresAt: int): Stores {
    if |PendingOn(s, d.channel)| >= MAX_PENDING_PER_CHANNEL then s
    else s.(rows := s.rows[d := Row(Pending, Some(code), Some(expiresAt))])
  }

  predicate Stale(row: Row, now: int) {
    row.state == Pending && row.expiresAt.Some? && row.expiresAt.value < now
  }

  function ExpireStale(s: Stores, now: int): Stores {
    s.(rows := map d | d in s.rows :: if Stale(s.rows[d], now) then s.rows[d].(state := Expired) else s.rows[d])
  }

  /** The devices that the gateway lists on a channel with a type. */
  function Listed(n: Naming, s: Stores): set<Device> {
    set key, sender | key in s.allowFrom && sender in s.allowFrom[key] && n.channel(key).Some?
      :: Device(n.channel(key).value, sender)
  }

  /** The upserts of a sync, all of those listed unless one of them throws. */
  function Import(s: Stores, devices: set<Device>): Stores {
    s.(rows := MarkAll(s.rows, devices, Approved))
  }

  function SyncFromGateway(n: Naming, s: Stores): Stores {
    Import(s, Listed(n, s))
  }

  // ---- Approving all pending rows ------------------------------------------------------------

  /** The `byChannel` map: channels in order of first appearance, with their senders. */
  type Groups = seq<(Channel, seq<Sender>)>

  function Push(groups: Groups, channel: Channel, sender: Sender): Groups {
    if groups == [] then [(channel, [sender])]
    else if groups[0].0 == channel then [(channel, groups[0].1 + [sender])] + groups[1..]
    else [groups[0]] + Push(groups[1..], channel, sender)
  }

  function Grouped(list: seq<Device>): Groups {
    if list == [] then []
    else Push(Grouped(list[..|list| - 1]), list[|list| - 1].channel, list[|list| - 1].sender)
  }

  function GrantGroups(n: Naming, s: Stores, groups: Groups): Stores {
    if groups == [] then s
    else
      var (channel, senders) := groups[|groups| - 1];
      Grant(GrantGroups(n, s, groups[..|groups| - 1]), n.key(channel), senders)
  }

  /** The groups whose patches go through. */
  function Taken(groups: Groups, reached: set<Channel>): Groups {
    if groups == [] then []
    else
      var last := groups[|groups| - 1];
      Taken(groups[..|groups| - 1], reached) + if last.0 in reached then [last] else []
  }

  /** One update of all rows, then one patch per channel, some of which may fail. */
  function BatchApprove(n: Naming, s: Stores, list: seq<Device>, reached: set<Channel>): Stores {
    GrantGroups(n, s.(rows := MarkAll(s.rows, PendingAll(s), Approved)), Taken(Grouped(list), reached))
  }

  /** What `findMany` may return for the pending rows: each of them once, in any order. */
  ghost predicate ListsPending(s: Stores, list: seq<Device>) {
    && (forall d :: d in list <==> d in PendingAll(s))
    && (forall i, j | 0 <= i < j < |list| :: list[i] != list[j])
  }

  /** The same devices approved one by one, where the same channels' patches go through. */
  function ApproveEach(n: Naming, s: Stores, list: seq<Device>, reached: set<Channel>): Stores {
    if list == [] then s
    else
      var last := list[|list| - 1];
      Approve(n, ApproveEach(n, s, list[..|list| - 1], reached), last, last.channel in reached)
  }

  // ---- The service -----------------------------------------------------------------------------

  class PairingService {
    const naming: Naming
    var rows: map<Device, Row>
    var allowFrom: map<Key, seq<Sender>>

    constructor (naming: Naming)
      ensures this.naming == naming && View() == Stores(map[], map[])
    {
      this.naming, rows, allowFrom := naming, map[], map[];
    }

    function View(): Stores
      reads this
    {
      Stores(rows, allowFrom)
    }

    method SyncApprovalToGateway(channel: Channel, senders: seq<Sender>, reached: bool)
      modifies this`allowFrom
      ensures View() == if reached then Grant(old(View()), naming.key(channel), senders) else old(View())
    {
      if !reached { return; }
      var key := naming.key(channel);
      var current := if key in allowFrom then allowFrom[key] else [];
      allowFrom := allowFrom[key := Dedup(current + senders)];
    }

    method SyncRevocationToGateway(channel: Channel, sender: Sender, reached: bool)
      modifies this`allowFrom
      ensures View() == if reached then Withdraw(old(View()), naming.key(channel), sender) else old(View())
    {
      if !reached { return; }
      var key := naming.key(channel);
      var current := if key in allowFrom then allowFrom[key] else [];
      allowFrom := allowFrom[key := Without(current, sender)];
    }

    method ApprovePairing(d: Device, reached: bool)
      modifies this
      ensures View() == Approve(naming, old(View()), d, reached)
      ensures rows == old(rows)[d := if d in old(rows) then old(rows)[d].(state := Approved)
                                     else Row(Approved, None, None)]
    {
      rows := rows[d := RowOf(rows, d).(state := Approved)];
      SyncApprovalToGateway(d.channel, [d.sender], reached);
    }

    method RejectPairing(d: Device) returns (found: bool)
      modifies this`rows
      ensures View() == Reject(old(View()), d) && found == (d in old(rows))
      ensures rows == if found then old(rows)[d := old(rows)[d].(state := Rejected)] else old(rows)
    {
      found := d in rows;
      if found {
        rows := rows[d := rows[d].(state := Rejected)];
      }
    }

    method RevokePairing(d: Device, reached: bool) returns (found: bool)
      modifies this
      ensures View() == Revoke(naming, old(View()), d, reached)
      ensures found == (d in old(rows) && old(rows)[d].state == Approved)
      ensures rows == if found then old(rows)[d := old(rows)[d].(state := Revoked)] else old(rows)
    {
      found := d in rows && rows[d].state == Approved;
      if !found { return; }
      rows := rows[d := rows[d].(state := Revoked)];
      SyncRevocationToGateway(d.channel, d.sender, reached);
    }

    method CreatePendingPairing(d: Device, code: string, expiresAt: int) returns (created: bool)
      modifies this`rows
      ensures View() == CreatePending(old(View()), d, code, expiresAt)
      ensures created == (|set e | e in old(rows) && e.channel == d.channel && old(rows)[e].state == Pending| < 3)
      ensures rows == if created then old(rows)[d := Row(Pending, Some(code), Some(expiresAt))] else old(rows)
    {
      created := |PendingOn(View(), d.channel)| < MAX_PENDING_PER_CHANNEL;
      if created {
        rows := rows[d := Row(Pending, Some(code), Some(expiresAt))];
      }
    }

    /** `listed` are the rows in the order the database returns them. */
    method FindByCode(listed: seq<Device>, code: string, now: int) returns (found: Option<Device>)
      requires forall d :: d in listed <==> d in rows
      ensures found.Some? <==> exists d :: d in rows && rows[d].state == Pending && rows[d].code == Some(code)
                                           && (rows[d].expiresAt.Some? ==> now < rows[d].expiresAt.value)
      ensures found.Some? ==> found.value in rows && Answers(rows[found.value], code, now)
    {
      for i := 0 to |listed|
        invariant forall j | 0 <= j < i :: !Answers(rows[listed[j]], code, now)
      {
        if Answers(rows[listed[i]], code, now) {
          return Some(listed[i]);
        }
      }
      return None;
    }

    /** Approves a device that waits under this code, if there is one. */
    method ApproveByCode(listed: seq<Device>, code: string, now: int, reached: bool) returns (found: Option<Device>)
      requires forall d :: d in listed <==> d in rows
      modifies this
      ensures found.None? <==> forall d :: d in old(rows) ==> !Answers(old(rows)[d], code, now)
      ensures found.None? ==> View() == old(View())
      ensures found.Some? ==> found.value in old(rows) && Answers(old(rows)[found.value], code, now)
                              && View() == Approve(naming, old(View()), found.value, reached)
    {
      found := FindByCode(listed, code, now);
      if found.Some? {
        ApprovePairing(found.value, reached);
      }
    }

    method BatchApproveAll(pending: seq<Device>, reached: set<Channel>)
      requires ListsPending(View(), pending)
      modifies this
      ensures View() == BatchApprove(naming, old(View()), pending, reached)
    {
      rows := MarkAll(rows, PendingAll(View()), Approved);
      ghost var marked := View();
      var byChannel: Groups := [];
      for i := 0 to |pending|
        invariant byChannel == Grouped(pending[..i])
      {
        byChannel := Push(byChannel, pending[i].channel, pending[i].sender);
        assert pending[..i + 1][..i] == pending[..i];
      }
      assert pending[..|pending|] == pending;
      for i := 0 to |byChannel|
        invariant View() == GrantGroups(naming, marked, Taken(byChannel[..i], reached))
      {
        GrantNext(naming, marked, byChannel, i, reached);
        SyncApprovalToGateway(byChannel[i].0, byChannel[i].1, byChannel[i].0 in reached);
      }
      assert byChannel[..|byChannel|] == byChannel;
    }

    /** Any of its calls may throw, which is only logged; then some of the devices listed
        have been imported. */
    method SyncPairingsFromGateway() returns (ghost done: set<Device>, threw: bool)
      modifies this`rows
      ensures View() == Import(old(View()), done) && done <= Listed(naming, old(View()))
      ensures !threw ==> View() == SyncFromGateway(naming, old(View()))
    {
      ghost var s := View();
      var keys := allowFrom.Keys;
      ListedEnds(naming, s);
      done, threw := {}, *;
      if threw { return; }
      while keys != {} && !threw
        invariant keys <= s.allowFrom.Keys && allowFrom == s.allowFrom
        invariant rows == MarkAll(s.rows, done, Approved) && done <= Listed(naming, s)
        invariant !threw ==> done == ListedOn(naming, s, s.allowFrom.Keys - keys)
        decreases |keys|
      {
        var key :| key in keys;
        assert key in s.allowFrom;
        ListedMore(naming, s, keys, key);
        done, threw := ImportKey(key, allowFrom[key], s.rows, done);
        keys := keys - {key};
      }
    }

    method ImportKey(key: Key, senders: seq<Sender>, ghost start: map<Device, Row>, ghost before: set<Device>)
      returns (ghost done: set<Device>, threw: bool)
      requires rows == MarkAll(start, before, Approved)
      modifies this`rows
      ensures rows == MarkAll(start, done, Approved)
      ensures before <= done <= before + ListedAt(naming, key, senders)
      ensures !threw ==> done == before + ListedAt(naming, key, senders)
    {
      done, threw := before, false;
      if naming.channel(key).Some? {
        done, threw := ImportChannel(naming.channel(key).value, senders, start, before);
      }
    }

    method ImportChannel(channel: Channel, senders: seq<Sender>, ghost start: map<Device, Row>,
                         ghost before: set<Device>)
      returns (ghost done: set<Device>, threw: bool)
      requires rows == MarkAll(start, before, Approved)
      modifies this`rows
      ensures rows == MarkAll(start, done, Approved)
      ensures before <= done <= before + DevicesOn(channel, senders)
      ensures !threw ==> done == before + DevicesOn(channel, senders)
    {
      done, threw := before, false;
      for i := 0 to |senders|
        invariant rows == MarkAll(start, done, Approved)
        invariant done == before + DevicesOn(channel, senders[..i])
      {
        threw := *;
        if threw {
          DevicesSome(channel, senders, i);
          return;
        }
        var d := Device(channel, senders[i]);
        assert DevicesOn(channel, senders[..i + 1]) == DevicesOn(channel, senders[..i]) + {d};
        MarkMore(start, done, d, Approved);
        rows := rows[d := RowOf(rows, d).(state := Approved)];
        done := done + {d};
      }
      threw := false;
      assert senders[..|senders|] == senders;
    }

    method ExpireStalePairings(now: int) returns (count: nat)
      modifies this`rows
      ensures View() == ExpireStale(old(View()), now)
      ensures count == |set d | d in old(rows) && old(rows)[d].state == Pending
                                && old(rows)[d].expiresAt.Some? && old(rows)[d].expiresAt.value < now|
      ensures rows == map d | d in old(rows) ::
                        if old(rows)[d].state == Pending && old(rows)[d].expiresAt.Some?
                           && old(rows)[d].expiresAt.value < now
                        then old(rows)[d].(state := Expired) else old(rows)[d]
    {
      var stale := set d | d in rows && Stale(rows[d], now);
      assert stale == set d | d in rows && rows[d].state == Pending
                              && rows[d].expiresAt.Some? && rows[d].expiresAt.value < now;
      count := |stale|;
      rows := map d | d in rows :: if Stale(rows[d], now) then rows[d].(state := Expired) else rows[d];
    }
  }

  predicate Answers(row: Row, code: string, now: int) {
    row.state == Pending && row.code == Some(code) && (row.expiresAt.Some? ==> row.expiresAt.value > now)
  }

  function DevicesOn(channel: Channel, senders: seq<Sender>): set<Device> {
    set sender | sender in senders :: Device(channel, sender)
  }

  lemma GrantNext(n: Naming, s: Stores, groups: Groups, i: nat, reached: set<Channel>)
    requires i < |groups|
    ensures var before := GrantGroups(n, s, Taken(groups[..i], reached));
            GrantGroups(n, s, Taken(groups[..i + 1], reached))
            == if groups[i].0 in reached then Grant(before, n.key(groups[i].0), groups[i].1) else before
  {
    TakenNext(groups, i, reached);
    if groups[i].0 in reached {
      GrantSnoc(n, s, Taken(groups[..i], reached), groups[i]);
    }
  }

  lemma TakenNext(groups: Groups, i: nat, reached: set<Channel>)
    requires i < |groups|
    ensures Taken(groups[..i + 1], reached)
            == if groups[i].0 in reached then Taken(groups[..i], reached) + [groups[i]] else Taken(groups[..i], reached)
  {
    assert groups[..i + 1][..i] == groups[..i];
  }

  lemma GrantSnoc(n: Naming, s: Stores, groups: Groups, group: (Channel, seq<Sender>))
    ensures GrantGroups(n, s, groups + [group]) == Grant(GrantGroups(n, s, groups), n.key(group.0), group.1)
  {
    assert (groups + [group])[..|groups|] == groups;
  }

  lemma DevicesSome(channel: Channel, senders: seq<Sender>, i: nat)
    requires i <= |senders|
    ensures DevicesOn(channel, senders[..i]) <= DevicesOn(channel, senders)
  {
  }

  ghost function ListedOn(n: Naming, s: Stores, keys: set<Key>): set<Device> {
    set key, sender | key in keys && key in s.allowFrom && sender in s.allowFrom[key] && n.channel(key).Some?
      :: Device(n.channel(key).value, sender)
  }

  function ListedAt(n: Naming, key: Key, senders: seq<Sender>): set<Device> {
    if n.channel(key).Some? then DevicesOn(n.channel(key).value, senders) else {}
  }

  lemma ListedMore(n: Naming, s: Stores, keys: set<Key>, key: Key)
    requires key in s.allowFrom && key in keys
    ensures ListedOn(n, s, s.allowFrom.Keys - (keys - {key}))
            == ListedOn(n, s, s.allowFrom.Keys - keys) + ListedAt(n, key, s.allowFrom[key])
  {
  }

  lemma ListedEnds(n: Naming, s: Stores)
    ensures ListedOn(n, s, s.allowFrom.Keys - s.allowFrom.Keys) == {}
    ensures ListedOn(n, s, s.allowFrom.Keys - {}) == Listed(n, s)
    ensures MarkAll(s.rows, {}, Approved) == s.rows
  {
  }

  lemma MarkMore(rows: map<Device, Row>, devices: set<Device>, d: Device, state: PairingState)
    ensures var marked := MarkAll(rows, devices, state);
            MarkAll(rows, devices + {d}, state) == marked[d := RowOf(marked, d).(state := state)]
  {
  }
}
