/** The channel that a process and a tag name in a system state, and how each action of
    the system changes it: the channels an action is not about are left as they were. */
module Projection {
  import opened IpcTypes
  import opened Channel
  import opened Network
  import C = ClientRouterSpec
  import S = ServerRouterSpec

  function NearOf(r: C.ClientState, t: Tag): Near {
    Near(r.connected, t in r.gateways, if t in r.gateways then r.gateways[t] else FreshView(None),
         t in r.table, t in r.greeting, t in r.mourning)
  }

  function FarOf(r: S.ServerState, c: ClientId, t: Tag): Far {
    var e := S.Endpoint(t, c);
    Far(r.services, r.Routed(c), r.Registered(e), r.Objects(e), S.Ref(e, 0) in r.mourning)
  }

  /** Client id 0 is never given out, so it stands for "not accepted yet". */
  function IdOf(s: Sys, p: Pid): ClientId {
    if p in s.ids then s.ids[p] else 0
  }

  function Up(s: Sys, p: Pid): seq<Frame>
    requires p in s.hosts
  {
    s.hosts[p].router.outbox
  }

  function Down(s: Sys, p: Pid): seq<Frame> {
    s.server.Outbox(IdOf(s, p))
  }

  /** Nobody has read further than there is to read. */
  predicate CursorsFit(s: Sys, p: Pid)
    requires p in s.hosts
  {
    s.Taken(IdOf(s, p)) <= |Up(s, p)| && s.hosts[p].taken <= |Down(s, p)|
  }

  function ChanOf(s: Sys, p: Pid, t: Tag): Chan
    requires p in s.hosts && CursorsFit(s, p)
  {
    Chan(t, NearOf(s.hosts[p].router, t),
         OnTag(Up(s, p), t), OnTag(Up(s, p)[..s.Taken(IdOf(s, p))], t),
         FarOf(s.server, IdOf(s, p), t),
         OnTag(Down(s, p), t), OnTag(Down(s, p)[..s.hosts[p].taken], t))
  }

  /** Client ids name one connection each, for ever; the router only knows open ones. */
  ghost predicate IdsFit(s: Sys) {
    && (forall p :: p in s.ids ==> p in s.hosts && s.ids[p] in s.sockets && s.sockets[s.ids[p]] == p)
    && (forall c :: c in s.sockets ==> 0 < c <= s.counter && s.sockets[c] in s.ids && s.ids[s.sockets[c]] == c)
    && s.contexts <= s.sockets.Keys
    && s.server.tables.Keys <= s.contexts
    && s.taken.Keys <= s.sockets.Keys
    && s.server.outbox.Keys <= s.sockets.Keys
    && (forall e :: e in s.server.objects ==> e.clientId in s.sockets)
    && (forall g :: g in s.server.mourning ==> g.endpoint.clientId in s.sockets && s.server.Exists(g))
  }

  ghost predicate HostFits(h: Host) {
    && (forall t: Tag :: t in h.router.gateways <==> t < h.router.nextTag)
    && h.router.table <= h.router.gateways.Keys
    && h.router.greeting <= h.router.gateways.Keys
    && h.router.mourning <= h.router.gateways.Keys
    && (h.router.mourning != {} ==> h.pipe.Closed?)
    && (h.router.connected ==> h.pipe.Open?)
  }

  /** The connection handshake of one process, as seen at both ends. */
  ghost predicate Handshake(s: Sys, p: Pid)
    requires p in s.hosts && CursorsFit(s, p)
  {
    var h := s.hosts[p];
    && (h.pipe.Connecting? ==> h.taken == 0 && Up(s, p) == [] && !h.router.connected)
    && (Up(s, p) != [] ==> Up(s, p)[0].Connect?)
    && (|Up(s, p)| > 1 ==> 0 < h.taken)
    && (Down(s, p) != [] ==>
          && Down(s, p)[0].Connect?
          && 0 < s.Taken(IdOf(s, p))
          && (s.server.Routed(IdOf(s, p)) || IdOf(s, p) !in s.contexts))
    && (s.server.Routed(IdOf(s, p)) ==> Down(s, p) != [])
    && (h.router.connected ==> 0 < h.taken)
  }

  ghost predicate ProcessGood(s: Sys, p: Pid)
    requires p in s.hosts
  {
    && CursorsFit(s, p)
    && HostFits(s.hosts[p])
    && Handshake(s, p)
    && forall t :: Good(ChanOf(s, p, t))
  }

  ghost predicate Inv(s: Sys) {
    IdsFit(s) && forall p :: p in s.hosts ==> ProcessGood(s, p)
  }

  // ---- How an action changes the channels.

  predicate Readable(s: Sys, p: Pid) {
    p in s.hosts && CursorsFit(s, p)
  }

  ghost predicate SameChannels(s: Sys, s': Sys, p: Pid) {
    && Readable(s, p) && Readable(s', p)
    && forall t :: ChanOf(s', p, t) == ChanOf(s, p, t)
  }

  ghost predicate OtherProcessesSame(s: Sys, s': Sys, p: Pid) {
    && s'.hosts.Keys == s.hosts.Keys
    && forall q :: q in s.hosts && q != p ==> SameChannels(s, s', q)
  }

  /** Channel `t` of process `p` becomes `k`; every other channel stays as it is. */
  ghost predicate OneChanges(s: Sys, s': Sys, p: Pid, t: Tag, k: Chan) {
    && OtherProcessesSame(s, s', p)
    && Readable(s, p) && Readable(s', p)
    && (forall u :: u != t ==> ChanOf(s', p, u) == ChanOf(s, p, u))
    && ChanOf(s', p, t) == k
  }

  /** Every channel of process `p` changes by `f`; those of other processes do not. */
  ghost predicate AllChange(s: Sys, s': Sys, p: Pid, f: Chan -> Chan) {
    && OtherProcessesSame(s, s', p)
    && Readable(s, p) && Readable(s', p)
    && forall t :: ChanOf(s', p, t) == f(ChanOf(s, p, t))
  }

  /** The part of the daemon that a process can tell apart is the same. */
  ghost predicate SameDaemon(s: Sys, s': Sys, p: Pid) {
    var c := IdOf(s, p);
    && IdOf(s', p) == c
    && s'.Taken(c) == s.Taken(c)
    && s'.server.Outbox(c) == s.server.Outbox(c)
    && s'.server.Routed(c) == s.server.Routed(c)
    && (c in s'.contexts <==> c in s.contexts)
    && forall t :: FarOf(s'.server, c, t) == FarOf(s.server, c, t)
  }

  lemma Untouched(s: Sys, s': Sys, p: Pid)
    requires p in s.hosts && p in s'.hosts && s'.hosts[p] == s.hosts[p]
    requires ProcessGood(s, p) && SameDaemon(s, s', p)
    ensures ProcessGood(s', p) && SameChannels(s, s', p)
  {
    hide Good, NearOf, FarOf, OnTag;
    forall t ensures ChanOf(s', p, t) == ChanOf(s, p, t) && Good(ChanOf(s', p, t)) {
      assert ChanOf(s', p, t) == ChanOf(s, p, t);
    }
  }
}
