/** The route registry: manifests, their status, and who may use them. */
module RouteRegistry {
  import opened Prelude

  // One entry of a manifest's layer list. Absent keys are None.
  datatype Layer = Layer(name: string, payloadKey: Option<string>, shape: Option<seq<nat>>, dtype: Option<string>)

  // `payload` is None when the manifest has no payload block; its `uri` may be empty.
  datatype Payload = Payload(uri: string, sha256: Option<string>)

  datatype Manifest = Manifest(layers: seq<Layer>, payload: Option<Payload>, modelHash: string, tenant: Option<string>)

  datatype Status = Production | Revoked | Quarantined

  datatype Registry = Registry(routes: map<RouteId, Manifest>, statuses: map<RouteId, Status>)

  // Present, neither revoked nor quarantined, built for this model, and open to this tenant.
  predicate Executable(g: Registry, id: RouteId, modelHash: string, tenant: string) {
    && id in g.routes
    && !(id in g.statuses && g.statuses[id] in {Revoked, Quarantined})
    && g.routes[id].modelHash == modelHash
    && (g.routes[id].tenant.None? || g.routes[id].tenant.value == "" || g.routes[id].tenant.value == tenant)
  }

  // The manifest is for this model, and for every tenant or this one.
  ghost predicate OpenTo(m: Manifest, modelHash: string, tenant: string) {
    m.modelHash == modelHash && (m.tenant.Some? && m.tenant.value != "" ==> m.tenant.value == tenant)
  }

  // What it takes to be handed a route: a status, if it has one, of PRODUCTION, and a
  // manifest that is open to the caller.
  lemma ExecutableMeans(g: Registry, id: RouteId, modelHash: string, tenant: string)
    ensures Executable(g, id, modelHash, tenant) <==>
      && id in g.routes && (id in g.statuses ==> g.statuses[id] == Production)
      && OpenTo(g.routes[id], modelHash, tenant)
  {
  }

  datatype RegistryOp =
    | Register(id: RouteId, manifest: Manifest, verified: bool)
    | Revoke(id: RouteId)
    | Quarantine(id: RouteId)

  // The registry after one call; the call raises exactly when nothing changes
  // (an unverified manifest, an unknown id).
  function Apply(g: Registry, op: RegistryOp): Registry {
    match op
    case Register(id, m, verified) =>
      if verified then Registry(g.routes[id := m], g.statuses[id := Production]) else g
    case Revoke(id) =>
      if id in g.routes then g.(statuses := g.statuses[id := Revoked]) else g
    case Quarantine(id) =>
      if id in g.routes then g.(statuses := g.statuses[id := Quarantined]) else g
  }

  class RouteRegistry {
    var routes: map<RouteId, Manifest>
    var statuses: map<RouteId, Status>
    var quarantineReasons: map<RouteId, string>

    ghost function View(): Registry
      reads this
    {
      Registry(routes, statuses)
    }

    constructor ()
      ensures View() == Registry(map[], map[]) && quarantineReasons == map[]
    {
      routes, statuses, quarantineReasons := map[], map[], map[];
    }

    // `verified` is the outcome of the schema, hash, signature, licence and verdict checks.
    method RegisterRoute(id: RouteId, manifest: Manifest, verified: bool) returns (ok: bool)
      modifies this
      ensures ok == verified
      ensures View() == Apply(old(View()), Register(id, manifest, verified))
      ensures routes == if verified then old(routes)[id := manifest] else old(routes)
      ensures statuses == if verified then old(statuses)[id := Production] else old(statuses)
      ensures quarantineReasons == old(quarantineReasons)
    {
      if verified {
        routes := routes[id := manifest];
        statuses := statuses[id := Production];
      }
      return verified;
    }

    method GetVerifiedRoute(id: RouteId, modelHash: string, tenant: string) returns (r: Option<Manifest>)
      ensures r == if Executable(View(), id, modelHash, tenant) then Some(routes[id]) else None
      ensures r.Some? <==>
        && id in routes && (id in statuses ==> statuses[id] == Production) && OpenTo(routes[id], modelHash, tenant)
      ensures r.Some? ==> r.value == routes[id]
    {
      ExecutableMeans(View(), id, modelHash, tenant);
      if id !in routes {
        return None;
      }
      var manifest := routes[id];
      if id in statuses && statuses[id] in {Revoked, Quarantined} {
        return None;
      }
      if manifest.modelHash != modelHash {
        return None;
      }
      if manifest.tenant.Some? && manifest.tenant.value != "" && manifest.tenant.value != tenant {
        return None;
      }
      return Some(manifest);
    }

    method RevokeRoute(id: RouteId) returns (ok: bool)
      modifies this
      ensures ok == (id in old(routes))
      ensures View() == Apply(old(View()), Revoke(id)) && routes == old(routes)
      ensures statuses == if ok then old(statuses)[id := Revoked] else old(statuses)
      ensures quarantineReasons == old(quarantineReasons)
    {
      if id !in routes {
        return false;
      }
      statuses := statuses[id := Revoked];
      return true;
    }

    method QuarantineRoute(id: RouteId, why: string) returns (ok: bool)
      modifies this
      ensures ok == (id in old(routes))
      ensures View() == Apply(old(View()), Quarantine(id)) && routes == old(routes)
      ensures statuses == if ok then old(statuses)[id := Quarantined] else old(statuses)
      ensures quarantineReasons == if ok then old(quarantineReasons)[id := why] else old(quarantineReasons)
    {
      if id !in routes {
        return false;
      }
      statuses := statuses[id := Quarantined];
      quarantineReasons := quarantineReasons[id := why];
      return true;
    }
  }

  // The registry after a whole run of calls.
  function ApplyAll(g: Registry, ops: seq<RegistryOp>): Registry
    decreases |ops|
  {
    if ops == [] then g else ApplyAll(Apply(g, ops[0]), ops[1..])
  }

  predicate Withdrawn(g: Registry, id: RouteId) {
    id in g.statuses && g.statuses[id] in {Revoked, Quarantined}
  }

  // What a call does to a route: a verified manifest opens it to those the manifest names, a
  // revocation or a quarantine of a known route withdraws it, and everything else, other
  // routes included, leaves it as it was.
  lemma ApplyMeans(g: Registry, op: RegistryOp, id: RouteId)
    ensures var g' := Apply(g, op);
      && (op.id != id ==> SameRoute(g, g', id))
      && (op.Register? && op.id == id && op.verified ==>
            g'.routes == g.routes[id := op.manifest]
            && forall h, t :: Executable(g', id, h, t) <==> OpenTo(op.manifest, h, t))
      && (op.Register? && !op.verified ==> g' == g)
      && (!op.Register? ==> g'.routes == g.routes)
      && (!op.Register? && op.id == id && id in g.routes ==>
            Withdrawn(g', id) && g'.statuses[id] == if op.Revoke? then Revoked else Quarantined)
      && (!op.Register? && id !in g.routes ==> SameRoute(g, g', id))
  {
    forall h, t { ExecutableMeans(Apply(g, op), id, h, t); }
  }

  ghost predicate SameRoute(g: Registry, g': Registry, id: RouteId) {
    && (id in g.routes <==> id in g'.routes) && (id in g.routes ==> g.routes[id] == g'.routes[id])
    && (id in g.statuses <==> id in g'.statuses) && (id in g.statuses ==> g.statuses[id] == g'.statuses[id])
  }

  // A withdrawn route stays unusable, for every model and tenant, through any run
  // of registry calls that does not register its id again.
  lemma {:induction false} WithdrawnStays(g: Registry, ops: seq<RegistryOp>, id: RouteId)
    requires Withdrawn(g, id)
    requires forall i :: 0 <= i < |ops| && ops[i].Register? && ops[i].verified ==> ops[i].id != id
    ensures Withdrawn(ApplyAll(g, ops), id)
    ensures forall h, t :: !Executable(ApplyAll(g, ops), id, h, t)
    decreases |ops|
  {
    if ops != [] {
      assert ops[0] in ops;
      WithdrawnStays(Apply(g, ops[0]), ops[1..], id);
    }
  }
}
