/**
 * The transport registry ("switcher") of the direct client: transports by
 * name, one of them active, held in a single object cached on the global
 * scope.
 */
module Registry {
  import opened Js
  import opened Wrappers
  import opened TransportModel

  class Switcher {
    var transports: map<string, Transport>
    /** `active`; `None` stands for both `null` and `undefined`. */
    var active: Option<Transport>

    constructor ()
      ensures transports == map[] && active == None
    {
      transports := map[];
      active := None;
    }

    /** Registers `client` under `name`, replacing an earlier entry of that
        name, and makes it active only when nothing is active yet. */
    method Add(name: string, client: Transport)
      modifies this
      ensures transports == old(transports)[name := client]
      ensures forall n :: n in old(transports) && n != name ==> transports[n] == old(transports)[n]
      ensures active == if old(active).None? then Some(client) else old(active)
    {
      transports := transports[name := client];
      if active.None? {
        active := Some(transports[name]);
      }
    }

    /** Makes the transport registered under `name` active; an unregistered
        name leaves nothing active. The registry itself is untouched. */
    method Select(name: string)
      modifies this`active
      ensures active == if name in transports then Some(transports[name]) else None
    {
      active := if name in transports then Some(transports[name]) else None;
    }
  }

  /** `globalThis`, as far as the registry uses it. */
  class GlobalScope {
    var gSwitcher: Option<Switcher>

    constructor ()
      ensures gSwitcher == None
    {
      gSwitcher := None;
    }
  }

  /** How the walk up the chain of parent windows ends when no switcher is
      cached yet: a switcher found on an ancestor, an access that throws
      (cross-origin, or no `parent` at all in a worker), or twenty steps
      without either. */
  datatype ParentWalk = FoundOnParent(switcher: Switcher) | AccessThrew | NothingFound

  const Unreachable: Exception := Thrown(Str("unreachable"))

  /** `findSwitcher()`: the cached switcher when there is one; otherwise the
      outcome of the parent walk, cached. */
  method FindSwitcher(g: GlobalScope, walk: ParentWalk) returns (r: Result<Switcher, Exception>)
    modifies g
    ensures old(g.gSwitcher).Some? ==> r == Ok(old(g.gSwitcher).value) && g.gSwitcher == old(g.gSwitcher)
    ensures old(g.gSwitcher).None? && walk.FoundOnParent? ==>
      r == Ok(walk.switcher) && g.gSwitcher == Some(walk.switcher)
    ensures old(g.gSwitcher).None? && walk.AccessThrew? ==>
      r.Ok? && fresh(r.value) && r.value.transports == map[] && r.value.active == None
      && g.gSwitcher == Some(r.value)
    ensures old(g.gSwitcher).None? && walk.NothingFound? ==> r == Err(Unreachable) && g.gSwitcher == None
  {
    if g.gSwitcher.Some? {
      return Ok(g.gSwitcher.value);
    }
    match walk
    case FoundOnParent(s) =>
      g.gSwitcher := Some(s);
      r := Ok(s);
    case AccessThrew =>
      var s := new Switcher();
      g.gSwitcher := Some(s);
      r := Ok(s);
    case NothingFound =>
      r := Err(Unreachable);
  }

  /** The switcher `findSwitcher` returns without creating one, if any. */
  function Existing(g: GlobalScope, walk: ParentWalk): Option<Switcher>
    reads g
  {
    if g.gSwitcher.Some? then g.gSwitcher else if walk.FoundOnParent? then Some(walk.switcher) else None
  }

  /** `AddTransport(name, client)` on the switcher `findSwitcher` yields. */
  method AddTransport(g: GlobalScope, walk: ParentWalk, name: string, client: Transport)
    returns (r: Result<Switcher, Exception>)
    modifies g, if g.gSwitcher.Some? then {g.gSwitcher.value} else {}, if walk.FoundOnParent? then {walk.switcher} else {}
    ensures r.Ok? ==> g.gSwitcher == Some(r.value)
    ensures var s := old(Existing(g, walk)); s.Some? ==>
      && r == Ok(s.value)
      && s.value.transports == old(s.value.transports)[name := client]
      && s.value.active == if old(s.value.active).None? then Some(client) else old(s.value.active)
    ensures old(g.gSwitcher).None? && walk.AccessThrew? ==>
      r.Ok? && fresh(r.value) && r.value.transports == map[name := client] && r.value.active == Some(client)
    ensures old(g.gSwitcher).None? && walk.NothingFound? ==> r == Err(Unreachable)
  {
    r := FindSwitcher(g, walk);
    if r.Ok? {
      r.value.Add(name, client);
    }
  }

  /** `SetTransport(name)` on the switcher `findSwitcher` yields. */
  method SetTransport(g: GlobalScope, walk: ParentWalk, name: string) returns (r: Result<Switcher, Exception>)
    modifies g, if g.gSwitcher.Some? then {g.gSwitcher.value} else {}, if walk.FoundOnParent? then {walk.switcher} else {}
    ensures r.Ok? ==> g.gSwitcher == Some(r.value)
    ensures var s := old(Existing(g, walk)); s.Some? ==>
      && r == Ok(s.value)
      && s.value.transports == old(s.value.transports)
      && s.value.active == if name in s.value.transports then Some(s.value.transports[name]) else None
    ensures old(g.gSwitcher).None? && walk.AccessThrew? ==>
      r.Ok? && fresh(r.value) && r.value.transports == map[] && r.value.active == None
    ensures old(g.gSwitcher).None? && walk.NothingFound? ==> r == Err(Unreachable)
  {
    r := FindSwitcher(g, walk);
    if r.Ok? {
      r.value.Select(name);
    }
  }
}
