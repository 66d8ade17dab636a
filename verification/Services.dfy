/** The services as the source writes them: objects that run statements one after another,
    each method computing exactly what its program in `Protocol` prescribes. */
module Services {
  import opened Wrappers
  import opened Domain
  import opened Protocol
  import opened Alone
  import Slug

  /** The clock, and the supply of new keys, row ids and nonces. */
  class Environment {
    var clock: nat
    var next: nat

    constructor ()
      ensures clock == 0 && next == 0
    {
      clock, next := 0, 0;
    }

    method Wait(delay: nat)
      modifies this`clock
      ensures clock == old(clock) + delay
    {
      clock := clock + delay;
    }

    method Fresh() returns (n: nat)
      modifies this`next
      ensures n == old(next) && next == old(next) + 1
    {
      n := next;
      next := next + 1;
    }
  }

  /** The reply to a query. */
  datatype Reply<+T> = Found(value: T) | Missing | Broken

  /** The tables, as both repositories see them. */
  class Database {
    var tenants: map<Id, Tenant>
    var seeds: map<Id, SeedRow>
    var creds: map<Id, Credential>

    constructor ()
      ensures tenants == map[] && seeds == map[] && creds == map[]
    {
      tenants, seeds, creds := map[], map[], map[];
    }

    method InsertTenant(t: Tenant, o: Outcome) returns (applied: bool, ok: bool)
      modifies this`tenants
      ensures applied == (!o.Failed? && TenantAllowed(old(tenants), t.name, t.slug))
      ensures tenants == if applied then old(tenants)[t.id := t] else old(tenants)
      ensures ok <==> applied && o.Ok?
    {
      applied := !o.Failed? && TenantAllowed(tenants, t.name, t.slug);
      ok := applied && o.Ok?;
      if applied { tenants := tenants[t.id := t]; }
    }

    method GetTenant(id: Id, o: Outcome) returns (r: Reply<Tenant>)
      ensures r == if !o.Ok? then Broken
                   else if id in tenants && tenants[id].status != Deleted then Found(tenants[id]) else Missing
    {
      if !o.Ok? { return Broken; }
      if id in tenants && tenants[id].status != Deleted { return Found(tenants[id]); }
      return Missing;
    }

    /** `SELECT account_jwt`, whatever the status. */
    method GetAccountJwt(id: Id, o: Outcome) returns (r: Reply<AccountJwt>)
      ensures r == if !o.Ok? then Broken else if id in tenants then Found(tenants[id].accountJwt) else Missing
    {
      if !o.Ok? { return Broken; }
      if id in tenants { return Found(tenants[id].accountJwt); }
      return Missing;
    }

    /** The visible rows among the first `n` ids, newest first, scanned one by one. */
    method List(n: nat, o: Outcome) returns (r: Reply<seq<Tenant>>)
      ensures r == if !o.Ok? then Broken else Found(Listing(tenants, n))
    {
      if !o.Ok? { return Broken; }
      var out: seq<Tenant> := [];
      var i := n;
      while i > 0
        invariant 0 <= i <= n
        invariant out + Listing(tenants, i) == Listing(tenants, n)
      {
        i := i - 1;
        if i in tenants && tenants[i].status != Deleted { out := out + [tenants[i]]; }
      }
      assert Listing(tenants, 0) == [] && out + [] == out;
      return Found(out);
    }

    method UpdateJwtAndLimits(t: Tenant, o: Outcome) returns (ok: bool)
      modifies this`tenants
      ensures tenants == LimitsSet(old(tenants), t.id, t.accountJwt, t.columns, o)
      ensures ok <==> o.Ok? && t.id in old(tenants)
    {
      ok := o.Ok? && t.id in tenants;
      if !o.Failed? && t.id in tenants {
        tenants := tenants[t.id := tenants[t.id].(accountJwt := t.accountJwt, columns := t.columns)];
      }
    }

    /** `UpdateAccountJWT`: no status filter, and no complaint about a missing row. */
    method UpdateJwt(id: Id, jwt: AccountJwt, o: Outcome) returns (ok: bool)
      modifies this`tenants
      ensures tenants == JwtSet(old(tenants), id, jwt, o)
      ensures ok <==> o.Ok?
    {
      ok := o.Ok?;
      if !o.Failed? && id in tenants { tenants := tenants[id := tenants[id].(accountJwt := jwt)]; }
    }

    /** `SetStatus` and, with `Deleted`, `SoftDelete`: no guard on the current status. */
    method UpdateStatus(id: Id, status: Status, o: Outcome) returns (ok: bool)
      modifies this`tenants
      ensures tenants == StatusSet(old(tenants), id, status, o)
      ensures ok <==> o.Ok?
    {
      ok := o.Ok?;
      if !o.Failed? && id in tenants { tenants := tenants[id := tenants[id].(status := status)]; }
    }

    method SaveEncryptedSeed(id: Id, box: Box, nonce: nat, o: Outcome) returns (ok: bool)
      modifies this`seeds
      ensures seeds == SeedSet(old(seeds), id, box, nonce, o)
      ensures ok <==> o.Ok?
    {
      ok := o.Ok?;
      if !o.Failed? {
        seeds := seeds[id := SeedRow(box, nonce, if id in seeds then seeds[id].keyVersion + 1 else 1)];
      }
    }

    method LoadEncryptedSeed(id: Id, o: Outcome) returns (r: Reply<SeedRow>)
      ensures r == if !o.Ok? then Broken else if id in seeds then Found(seeds[id]) else Missing
    {
      if !o.Ok? { return Broken; }
      if id in seeds { return Found(seeds[id]); }
      return Missing;
    }

    method InsertCredential(c: Credential, o: Outcome) returns (applied: bool, ok: bool)
      modifies this`creds
      ensures applied == (!o.Failed? && CredentialAllowed(tenants, old(creds), c.tenantId, c.name))
      ensures creds == if applied then old(creds)[c.id := c] else old(creds)
      ensures ok <==> applied && o.Ok?
    {
      applied := !o.Failed? && CredentialAllowed(tenants, creds, c.tenantId, c.name);
      ok := applied && o.Ok?;
      if applied { creds := creds[c.id := c]; }
    }

    method GetCredential(cid: Id, o: Outcome) returns (r: Reply<Credential>)
      ensures r == if !o.Ok? then Broken else if cid in creds then Found(creds[cid]) else Missing
    {
      if !o.Ok? { return Broken; }
      if cid in creds { return Found(creds[cid]); }
      return Missing;
    }

    method RevokeCredential(cid: Id, at: nat, o: Outcome) returns (ok: bool)
      modifies this`creds
      ensures creds == RevokedAtSet(old(creds), cid, at, o)
      ensures ok <==> o.Ok?
    {
      ok := o.Ok?;
      if !o.Failed? && cid in creds { creds := creds[cid := creds[cid].(revokedAt := Some(at))]; }
    }
  }

  /** The remote account map behind `$SYS.REQ.CLAIMS`. */
  class Resolver {
    var accounts: map<PublicKey, AccountJwt>

    constructor ()
      ensures accounts == map[]
    {
      accounts := map[];
    }

    method Push(jwt: AccountJwt, o: Outcome) returns (ok: bool)
      modifies this
      ensures accounts == Pushed(old(accounts), jwt, o)
      ensures ok <==> o.Ok?
    {
      ok := o.Ok?;
      if !o.Failed? { accounts := accounts[jwt.claims.subject := jwt]; }
    }

    method Delete(key: PublicKey, o: Outcome) returns (ok: bool)
      modifies this
      ensures accounts == Removed(old(accounts), key, o)
      ensures ok <==> o.Ok?
    {
      ok := o.Ok?;
      if !o.Failed? { accounts := accounts - {key}; }
    }
  }

  class TenantService {
    const cfg: Config
    const env: Environment
    const db: Database
    const resolver: Resolver?

    constructor (master: Seed, operator: PublicKey, env: Environment, db: Database, resolver: Resolver?)
      ensures Valid() && this.env == env && this.db == db && this.resolver == resolver
    {
      this.cfg := Config(master, operator, resolver != null);
      this.env := env;
      this.db := db;
      this.resolver := resolver;
    }

    ghost predicate Valid() {
      cfg.resolver <==> resolver != null
    }

    /** The stores this service works on. */
    ghost function Stores(): World
      reads env, db, resolver
    {
      World(db.tenants, db.seeds, db.creds, if resolver != null then resolver.accounts else map[], env.clock, env.next)
    }

    /** `PushAccountJWT`, the last statement of credential revocation and of a reseed. */
    method PushAccountJwt(id: Id, jwt: AccountJwt, plan: seq<Choice>) returns (res: Result)
      requires Valid()
      modifies env, resolver
      ensures Conf(Stores(), Done(res)) == Exec(cfg, old(Stores()), Protocol.PushAccountJwt(id, jwt), plan)
    {
      hide Exec, Go, StatusSet, JwtSet, LimitsSet, SeedSet, RevokedAtSet, Pushed, Removed;
      ghost var w, l := Stores(), Protocol.PushAccountJwt(id, jwt);
      env.Wait(Head(plan).delay);
      if resolver == null {
        res := Failure(Unreachable);
      } else {
        var ok := resolver.Push(jwt, Head(plan).outcome);
        res := if ok then Completed else Failure(Unreachable);
      }
      Turn(cfg, w, l, plan, Conf(Stores(), Done(res))) by { ReconcileGoes(cfg, w, l, Head(plan)); }
    }

    method UpdateLimits(id: Id, columns: Columns, plan: seq<Choice>) returns (res: Result)
      requires Valid()
      modifies env, db, resolver
      ensures Conf(Stores(), Done(res)) == Exec(cfg, old(Stores()), LimitsRead(id, columns), plan)
    {
      hide SignAccountClaims, WithLimits, Exec, Go, StatusSet, JwtSet, LimitsSet, SeedSet, RevokedAtSet, Pushed,
        Removed;
      var p := plan;
      ghost var w, l := Stores(), LimitsRead(id, columns);
      env.Wait(Head(p).delay);
      var read := db.GetTenant(id, Head(p).outcome);
      if !read.Found? {
        res := Failure(if read.Missing? then NotFound else Internal);
        Turn(cfg, w, l, p, Conf(Stores(), Done(res))) by { LimitsGoes(cfg, w, l, Head(p)); }
        return;
      }
      var t := read.value;
      Turn(cfg, w, l, p, Conf(Stores(), LimitsSign(t, columns))) by { LimitsGoes(cfg, w, l, Head(p)); }

      w, l, p := Stores(), LimitsSign(t, columns), Tail(p);
      env.Wait(Head(p).delay);
      if !Head(p).outcome.Ok? {
        res := Failure(Internal);
        Turn(cfg, w, l, p, Conf(Stores(), Done(res))) by { LimitsGoes(cfg, w, l, Head(p)); }
        return;
      }
      var jwt := SignAccountClaims(cfg.operator, WithLimits(t.accountJwt.claims, columns), env.clock);
      Turn(cfg, w, l, p, Conf(Stores(), LimitsWrite(t, columns, jwt))) by { LimitsGoes(cfg, w, l, Head(p)); }

      w, l, p := Stores(), LimitsWrite(t, columns, jwt), Tail(p);
      env.Wait(Head(p).delay);
      t := t.(accountJwt := jwt, columns := columns);
      var ok := db.UpdateJwtAndLimits(t, Head(p).outcome);
      if !ok {
        res := Failure(Internal);
        Turn(cfg, w, l, p, Conf(Stores(), Done(res))) by { LimitsGoes(cfg, w, l, Head(p)); }
        return;
      }
      Turn(cfg, w, l, p, Conf(Stores(), LimitsPush(t))) by { LimitsGoes(cfg, w, l, Head(p)); }

      w, l, p := Stores(), LimitsPush(t), Tail(p);
      env.Wait(Head(p).delay);
      res := Updated(t);
      if resolver != null {
        ok := resolver.Push(jwt, Head(p).outcome);
        if !ok { res := Failure(Unreachable); }
      }
      Turn(cfg, w, l, p, Conf(Stores(), Done(res))) by { LimitsGoes(cfg, w, l, Head(p)); }
    }

    method Create(req: CreateRequest, plan: seq<Choice>) returns (res: Result)
      requires Valid()
      modifies env, db, resolver
      ensures Conf(Stores(), Done(res)) == Exec(cfg, old(Stores()), CreateCheck(req), plan)
    {
      hide Exec, Go, StatusSet, JwtSet, LimitsSet, SeedSet, RevokedAtSet, Pushed, Removed, Slug.MatchString,
        TenantAllowed, CreateClaims, SignAccountClaims;
      var p := plan;
      ghost var w, l := Stores(), CreateCheck(req);
      env.Wait(Head(p).delay);
      if !Slug.MatchString(req.slug) || !Head(p).outcome.Ok? {
        res := Failure(if Slug.MatchString(req.slug) then Internal else InvalidSlug);
        Turn(cfg, w, l, p, Conf(Stores(), Done(res))) by { CreateGoes(cfg, w, l, Head(p)); }
        return;
      }
      var seed := env.Fresh();
      var key := PublicKeyOf(seed);
      var jwt := SignAccountClaims(cfg.operator, CreateClaims(req, key, env.clock), env.clock);
      Turn(cfg, w, l, p, Conf(Stores(), CreateInsert(req, seed, jwt))) by { CreateGoes(cfg, w, l, Head(p)); }
      res := InsertRow(req, seed, jwt, Tail(p));
    }

    /** The INSERT, and what follows it. */
    method InsertRow(req: CreateRequest, seed: Seed, jwt: AccountJwt, plan: seq<Choice>) returns (res: Result)
      requires Valid()
      modifies env, db, resolver
      ensures Conf(Stores(), Done(res)) == Exec(cfg, old(Stores()), CreateInsert(req, seed, jwt), plan)
    {
      hide Exec, Go, StatusSet, JwtSet, LimitsSet, SeedSet, RevokedAtSet, Pushed, Removed, TenantAllowed;
      var p := plan;
      ghost var w, l := Stores(), CreateInsert(req, seed, jwt);
      env.Wait(Head(p).delay);
      var t := Tenant(env.next, req.name, req.slug, PublicKeyOf(seed), jwt, req.columns, Active);
      var applied, ok := db.InsertTenant(t, Head(p).outcome);
      if applied { var _ := env.Fresh(); }
      if !ok {
        res := Failure(Internal);
        Turn(cfg, w, l, p, Conf(Stores(), Done(res))) by { CreateGoes(cfg, w, l, Head(p)); }
        return;
      }
      Turn(cfg, w, l, p, Conf(Stores(), CreateSave(t, seed))) by { CreateGoes(cfg, w, l, Head(p)); }

      res := StoreSeedAndPush(t, seed, Tail(p));
    }

    /** The part of Create that a failure compensates by a soft delete. */
    method StoreSeedAndPush(t: Tenant, seed: Seed, plan: seq<Choice>) returns (res: Result)
      requires Valid()
      modifies env, db, resolver
      ensures Conf(Stores(), Done(res)) == Exec(cfg, old(Stores()), CreateSave(t, seed), plan)
    {
      hide Exec, Go, StatusSet, JwtSet, LimitsSet, SeedSet, RevokedAtSet, Pushed, Removed;
      var p := plan;
      ghost var w, l := Stores(), CreateSave(t, seed);
      env.Wait(Head(p).delay);
      var nonce := env.Fresh();
      var ok := db.SaveEncryptedSeed(t.id, Encrypt(cfg.master, nonce, seed), nonce, Head(p).outcome);
      if !ok {
        Turn(cfg, w, l, p, Conf(Stores(), CreateUndo(t.id))) by { CreateGoes(cfg, w, l, Head(p)); }
        res := Compensate(t.id, Tail(p));
        return;
      }
      Turn(cfg, w, l, p, Conf(Stores(), CreatePush(t, seed))) by { CreateGoes(cfg, w, l, Head(p)); }
      res := FirstPush(t, seed, Tail(p));
    }

    method FirstPush(t: Tenant, seed: Seed, plan: seq<Choice>) returns (res: Result)
      requires Valid()
      modifies env, db, resolver
      ensures Conf(Stores(), Done(res)) == Exec(cfg, old(Stores()), CreatePush(t, seed), plan)
    {
      hide Exec, Go, StatusSet, JwtSet, LimitsSet, SeedSet, RevokedAtSet, Pushed, Removed;
      var p := plan;
      ghost var w, l := Stores(), CreatePush(t, seed);
      env.Wait(Head(p).delay);
      if resolver != null {
        var ok := resolver.Push(t.accountJwt, Head(p).outcome);
        if !ok {
          Turn(cfg, w, l, p, Conf(Stores(), CreateUndo(t.id))) by { CreateGoes(cfg, w, l, Head(p)); }
          res := Compensate(t.id, Tail(p));
          return;
        }
      }
      res := Created(t, seed);
      Turn(cfg, w, l, p, Conf(Stores(), Done(res))) by { CreateGoes(cfg, w, l, Head(p)); }
    }

    /** The soft delete whose own error is dropped. */
    method Compensate(id: Id, plan: seq<Choice>) returns (res: Result)
      requires Valid()
      modifies env, db
      ensures Conf(Stores(), Done(res)) == Exec(cfg, old(Stores()), CreateUndo(id), plan)
    {
      hide Exec, Go, StatusSet, JwtSet, LimitsSet, SeedSet, RevokedAtSet, Pushed, Removed;
      var p := plan;
      ghost var w, l := Stores(), CreateUndo(id);
      env.Wait(Head(p).delay);
      var _ := db.UpdateStatus(id, Deleted, Head(p).outcome);
      res := Failure(Internal);
      Turn(cfg, w, l, p, Conf(Stores(), Done(res))) by { CreateGoes(cfg, w, l, Head(p)); }
    }

    /** The SetStatus that ends Suspend and Activate. */
    method MarkStatus(id: Id, status: Status, plan: seq<Choice>) returns (res: Result)
      requires Valid()
      modifies env, db
      ensures Conf(Stores(), Done(res)) == Exec(cfg, old(Stores()), Local.MarkStatus(id, status), plan)
    {
      hide Exec, Go, StatusSet, JwtSet, LimitsSet, SeedSet, RevokedAtSet, Pushed, Removed;
      ghost var w, l := Stores(), Local.MarkStatus(id, status);
      env.Wait(Head(plan).delay);
      var ok := db.UpdateStatus(id, status, Head(plan).outcome);
      res := if ok then Completed else Failure(Internal);
      Turn(cfg, w, l, plan, Conf(Stores(), Done(res))) by { StatusGoes(cfg, w, l, Head(plan)); }
    }

    method Suspend(id: Id, plan: seq<Choice>) returns (res: Result)
      requires Valid()
      modifies env, db, resolver
      ensures Conf(Stores(), Done(res)) == Exec(cfg, old(Stores()), SuspendRead(id), plan)
    {
      hide Exec, Go, StatusSet, JwtSet, LimitsSet, SeedSet, RevokedAtSet, Pushed, Removed;
      var p := plan;
      ghost var w, l := Stores(), SuspendRead(id);
      env.Wait(Head(p).delay);
      var read := db.GetTenant(id, Head(p).outcome);
      if !read.Found? {
        res := Failure(if read.Missing? then NotFound else Internal);
        Turn(cfg, w, l, p, Conf(Stores(), Done(res))) by { StatusGoes(cfg, w, l, Head(p)); }
        return;
      }
      var key := read.value.accountKey;
      Turn(cfg, w, l, p, Conf(Stores(), SuspendRemove(id, key))) by { StatusGoes(cfg, w, l, Head(p)); }
      w, l, p := Stores(), SuspendRemove(id, key), Tail(p);
      env.Wait(Head(p).delay);
      if resolver != null {
        var ok := resolver.Delete(key, Head(p).outcome);
        if !ok {
          res := Failure(Unreachable);
          Turn(cfg, w, l, p, Conf(Stores(), Done(res))) by { StatusGoes(cfg, w, l, Head(p)); }
          return;
        }
      }
      Turn(cfg, w, l, p, Conf(Stores(), Local.MarkStatus(id, Suspended))) by { StatusGoes(cfg, w, l, Head(p)); }
      res := MarkStatus(id, Suspended, Tail(p));
    }

    method Activate(id: Id, plan: seq<Choice>) returns (res: Result)
      requires Valid()
      modifies env, db, resolver
      ensures Conf(Stores(), Done(res)) == Exec(cfg, old(Stores()), ActivateRead(id), plan)
    {
      hide Exec, Go, StatusSet, JwtSet, LimitsSet, SeedSet, RevokedAtSet, Pushed, Removed;
      var p := plan;
      ghost var w, l := Stores(), ActivateRead(id);
      env.Wait(Head(p).delay);
      var read := db.GetTenant(id, Head(p).outcome);
      if !read.Found? {
        res := Failure(if read.Missing? then NotFound else Internal);
        Turn(cfg, w, l, p, Conf(Stores(), Done(res))) by { StatusGoes(cfg, w, l, Head(p)); }
        return;
      }
      var jwt := read.value.accountJwt;
      Turn(cfg, w, l, p, Conf(Stores(), ActivatePush(id, jwt))) by { StatusGoes(cfg, w, l, Head(p)); }
      w, l, p := Stores(), ActivatePush(id, jwt), Tail(p);
      env.Wait(Head(p).delay);
      if resolver != null {
        var ok := resolver.Push(jwt, Head(p).outcome);
        if !ok {
          res := Failure(Unreachable);
          Turn(cfg, w, l, p, Conf(Stores(), Done(res))) by { StatusGoes(cfg, w, l, Head(p)); }
          return;
        }
      }
      Turn(cfg, w, l, p, Conf(Stores(), Local.MarkStatus(id, Active))) by { StatusGoes(cfg, w, l, Head(p)); }
      res := MarkStatus(id, Active, Tail(p));
    }

    /** The error of the resolver's delete is dropped. */
    method Delete(id: Id, plan: seq<Choice>) returns (res: Result)
      requires Valid()
      modifies env, db, resolver
      ensures Conf(Stores(), Done(res)) == Exec(cfg, old(Stores()), DeleteRead(id), plan)
    {
      hide Exec, Go, StatusSet, JwtSet, LimitsSet, SeedSet, RevokedAtSet, Pushed, Removed;
      var p := plan;
      ghost var w, l := Stores(), DeleteRead(id);
      env.Wait(Head(p).delay);
      var read := db.GetTenant(id, Head(p).outcome);
      if !read.Found? {
        res := Failure(if read.Missing? then NotFound else Internal);
        Turn(cfg, w, l, p, Conf(Stores(), Done(res))) by { StatusGoes(cfg, w, l, Head(p)); }
        return;
      }
      var key := read.value.accountKey;
      Turn(cfg, w, l, p, Conf(Stores(), DeleteRemove(id, key))) by { StatusGoes(cfg, w, l, Head(p)); }
      w, l, p := Stores(), DeleteRemove(id, key), Tail(p);
      env.Wait(Head(p).delay);
      if resolver != null { var _ := resolver.Delete(key, Head(p).outcome); }
      Turn(cfg, w, l, p, Conf(Stores(), DeleteMark(id))) by { StatusGoes(cfg, w, l, Head(p)); }
      w, l, p := Stores(), DeleteMark(id), Tail(p);
      env.Wait(Head(p).delay);
      var ok := db.UpdateStatus(id, Deleted, Head(p).outcome);
      res := if ok then Completed else Failure(Internal);
      Turn(cfg, w, l, p, Conf(Stores(), Done(res))) by { StatusGoes(cfg, w, l, Head(p)); }
    }

    /** The closure handed to the JetStream admin: read the row, push its token. */
    method Reseed(id: Id, plan: seq<Choice>) returns (res: Result)
      requires Valid()
      modifies env, resolver
      ensures Conf(Stores(), Done(res)) == Exec(cfg, old(Stores()), ReseedRead(id), plan)
    {
      hide Exec, Go, StatusSet, JwtSet, LimitsSet, SeedSet, RevokedAtSet, Pushed, Removed;
      var p := plan;
      ghost var w, l := Stores(), ReseedRead(id);
      env.Wait(Head(p).delay);
      var read := db.GetTenant(id, Head(p).outcome);
      if !read.Found? {
        res := Failure(if read.Missing? then NotFound else Internal);
        Turn(cfg, w, l, p, Conf(Stores(), Done(res))) by { ReconcileGoes(cfg, w, l, Head(p)); }
        return;
      }
      Turn(cfg, w, l, p, Conf(Stores(), Protocol.PushAccountJwt(id, read.value.accountJwt)))
        by { ReconcileGoes(cfg, w, l, Head(p)); }
      res := PushAccountJwt(id, read.value.accountJwt, Tail(p));
    }

    /** Pushes every active tenant's token, counting good and bad replies. */
    method ReconcileAll(plan: seq<Choice>) returns (res: Result)
      requires Valid()
      modifies env, resolver
      ensures Conf(Stores(), Done(res)) == Exec(cfg, old(Stores()), ReconcileList, plan)
    {
      hide Exec, Go, StatusSet, JwtSet, LimitsSet, SeedSet, RevokedAtSet, Pushed, Removed, Listing;
      var p := plan;
      ghost var w, l := Stores(), ReconcileList;
      env.Wait(Head(p).delay);
      if resolver == null {
        res := Failure(Unreachable);
        Turn(cfg, w, l, p, Conf(Stores(), Done(res))) by { ReconcileGoes(cfg, w, l, Head(p)); }
        return;
      }
      var read := db.List(env.next, Head(p).outcome);
      if !read.Found? {
        res := Failure(Internal);
        Turn(cfg, w, l, p, Conf(Stores(), Done(res))) by { ReconcileGoes(cfg, w, l, Head(p)); }
        return;
      }
      var rows := read.value;
      Turn(cfg, w, l, p, Conf(Stores(), ReconcilePush(rows, 0, 0))) by { ReconcileGoes(cfg, w, l, Head(p)); }
      p := Tail(p);
      var i, pushed, failed := 0, 0, 0;
      while i < |rows|
        invariant 0 <= i <= |rows| && pushed >= 0 && failed >= 0
        invariant Exec(cfg, old(Stores()), ReconcileList, plan)
          == Exec(cfg, Stores(), ReconcilePush(rows[i..], pushed, failed), p)
      {
        w, l := Stores(), ReconcilePush(rows[i..], pushed, failed);
        env.Wait(Head(p).delay);
        var t := rows[i];
        i := i + 1;
        if t.status == Active {
          var ok := resolver.Push(t.accountJwt, Head(p).outcome);
          if ok { pushed := pushed + 1; } else { failed := failed + 1; }
        }
        assert l.todo[1..] == rows[i..];
        Turn(cfg, w, l, p, Conf(Stores(), ReconcilePush(rows[i..], pushed, failed)))
          by { ReconcileGoes(cfg, w, l, Head(p)); }
        p := Tail(p);
      }
      assert rows[i..] == [];
      w, l := Stores(), ReconcilePush([], pushed, failed);
      env.Wait(Head(p).delay);
      res := Reconciled(pushed, failed);
      Turn(cfg, w, l, p, Conf(Stores(), Done(res))) by { ReconcileGoes(cfg, w, l, Head(p)); }
    }

    /** `AccountSeedForSigning`: the stored seed, opened. */
    method AccountSeedForSigning(id: Id, o: Outcome) returns (seed: Reply<Seed>)
      ensures seed == if !o.Ok? then Broken else if id !in db.seeds then Missing else
        match Decrypt(cfg.master, db.seeds[id].encryptedSeed, db.seeds[id].nonce)
        case None => Broken
        case Some(plaintext) => Found(plaintext)
    {
      var row := db.LoadEncryptedSeed(id, o);
      if row.Broken? { return Broken; }
      if row.Missing? { return Missing; }
      var plaintext := Decrypt(cfg.master, row.value.encryptedSeed, row.value.nonce);
      if plaintext.None? { return Broken; }
      return Found(plaintext.value);
    }
  }

  class CredentialService {
    const cfg: Config
    const env: Environment
    const db: Database
    const tenants: TenantService

    constructor (tenants: TenantService)
      requires tenants.Valid()
      ensures Valid() && this.tenants == tenants
    {
      this.cfg := tenants.cfg;
      this.env := tenants.env;
      this.db := tenants.db;
      this.tenants := tenants;
    }

    ghost predicate Valid() {
      tenants.Valid() && cfg == tenants.cfg && env == tenants.env && db == tenants.db
    }

    ghost function Stores(): World
      requires Valid()
      reads env, db, tenants.resolver
    {
      tenants.Stores()
    }

    method Issue(id: Id, name: string, expires: Option<nat>, plan: seq<Choice>) returns (res: Result)
      requires Valid()
      modifies env, db
      ensures Conf(Stores(), Done(res)) == Exec(cfg, old(Stores()), IssueRead(id, name, expires), plan)
    {
      hide Exec, Go, StatusSet, JwtSet, LimitsSet, SeedSet, RevokedAtSet, Pushed, Removed;
      var p := plan;
      ghost var w, l := Stores(), IssueRead(id, name, expires);
      env.Wait(Head(p).delay);
      var read := db.GetTenant(id, Head(p).outcome);
      if !read.Found? {
        res := Failure(TenantGone);
        Turn(cfg, w, l, p, Conf(Stores(), Done(res))) by { IssueGoes(cfg, w, l, Head(p)); }
        return;
      }
      Turn(cfg, w, l, p, Conf(Stores(), IssueUnseal(id, name, expires))) by { IssueGoes(cfg, w, l, Head(p)); }

      w, l, p := Stores(), IssueUnseal(id, name, expires), Tail(p);
      env.Wait(Head(p).delay);
      var seed := tenants.AccountSeedForSigning(id, Head(p).outcome);
      if !seed.Found? {
        res := Failure(if seed.Missing? then NotFound else Internal);
        Turn(cfg, w, l, p, Conf(Stores(), Done(res))) by { IssueGoes(cfg, w, l, Head(p)); }
        return;
      }
      Turn(cfg, w, l, p, Conf(Stores(), IssueSign(id, name, expires, seed.value))) by { IssueGoes(cfg, w, l, Head(p)); }

      res := SignAndInsert(id, name, expires, seed.value, Tail(p));
    }

    /** The part of Issue after the account seed is opened: mint, sign, seal, insert. */
    method SignAndInsert(id: Id, name: string, expires: Option<nat>, seed: Seed, plan: seq<Choice>)
      returns (res: Result)
      requires Valid()
      modifies env, db
      ensures Conf(Stores(), Done(res)) == Exec(cfg, old(Stores()), IssueSign(id, name, expires, seed), plan)
    {
      hide Exec, Go, StatusSet, JwtSet, LimitsSet, SeedSet, RevokedAtSet, Pushed, Removed;
      var p := plan;
      ghost var w, l := Stores(), IssueSign(id, name, expires, seed);
      env.Wait(Head(p).delay);
      if !Head(p).outcome.Ok? {
        res := Failure(Internal);
        Turn(cfg, w, l, p, Conf(Stores(), Done(res))) by { IssueGoes(cfg, w, l, Head(p)); }
        return;
      }
      var userSeed := env.Fresh();
      var nonce := env.Fresh();
      var account := PublicKeyOf(seed);
      var user := UserJwt(PublicKeyOf(userSeed), name, env.clock, expires, account, account);
      var c := Credential(0, id, name, user.subject, user, Encrypt(cfg.master, nonce, userSeed), nonce, None);
      Turn(cfg, w, l, p, Conf(Stores(), IssueInsert(c))) by { IssueGoes(cfg, w, l, Head(p)); }

      w, l, p := Stores(), IssueInsert(c), Tail(p);
      env.Wait(Head(p).delay);
      c := c.(id := env.next);
      var applied, ok := db.InsertCredential(c, Head(p).outcome);
      if applied { var _ := env.Fresh(); }
      res := if ok then Issued(c) else Failure(Internal);
      Turn(cfg, w, l, p, Conf(Stores(), Done(res))) by { IssueGoes(cfg, w, l, Head(p)); }
    }

    method Revoke(id: Id, cid: Id, plan: seq<Choice>) returns (res: Result)
      requires Valid()
      modifies env, db, tenants.resolver
      ensures Conf(Stores(), Done(res)) == Exec(cfg, old(Stores()), RevokeFind(id, cid), plan)
    {
      hide Exec, Go, StatusSet, JwtSet, LimitsSet, SeedSet, RevokedAtSet, Pushed, Removed;
      var p := plan;
      ghost var w, l := Stores(), RevokeFind(id, cid);
      env.Wait(Head(p).delay);
      var cred := db.GetCredential(cid, Head(p).outcome);
      if !cred.Found? || cred.value.tenantId != id {
        res := Failure(NotFound);
        Turn(cfg, w, l, p, Conf(Stores(), Done(res))) by { RevokeGoes(cfg, w, l, Head(p)); }
        return;
      }
      if cred.value.revokedAt.Some? {
        res := Completed;
        Turn(cfg, w, l, p, Conf(Stores(), Done(res))) by { RevokeGoes(cfg, w, l, Head(p)); }
        return;
      }
      var key := cred.value.userKey;
      Turn(cfg, w, l, p, Conf(Stores(), RevokeVisible(id, cid, key))) by { RevokeGoes(cfg, w, l, Head(p)); }

      w, l, p := Stores(), RevokeVisible(id, cid, key), Tail(p);
      env.Wait(Head(p).delay);
      var read := db.GetTenant(id, Head(p).outcome);
      if !read.Found? {
        res := Failure(TenantGone);
        Turn(cfg, w, l, p, Conf(Stores(), Done(res))) by { RevokeGoes(cfg, w, l, Head(p)); }
        return;
      }
      Turn(cfg, w, l, p, Conf(Stores(), RevokeRead(id, cid, key))) by { RevokeGoes(cfg, w, l, Head(p)); }

      res := RewriteToken(id, cid, key, Tail(p));
    }

    /** The read and re-signing of the account token. */
    method RewriteToken(id: Id, cid: Id, key: PublicKey, plan: seq<Choice>) returns (res: Result)
      requires Valid()
      modifies env, db, tenants.resolver
      ensures Conf(Stores(), Done(res)) == Exec(cfg, old(Stores()), RevokeRead(id, cid, key), plan)
    {
      hide Exec, Go, StatusSet, JwtSet, LimitsSet, SeedSet, RevokedAtSet, Pushed, Removed, SignAccountClaims,
        WithRevocation;
      var p := plan;
      ghost var w, l := Stores(), RevokeRead(id, cid, key);
      env.Wait(Head(p).delay);
      var row := db.GetAccountJwt(id, Head(p).outcome);
      if !row.Found? {
        res := Failure(Internal);
        Turn(cfg, w, l, p, Conf(Stores(), Done(res))) by { RevokeGoes(cfg, w, l, Head(p)); }
        return;
      }
      var was := row.value;
      Turn(cfg, w, l, p, Conf(Stores(), RevokeSign(id, cid, key, was))) by { RevokeGoes(cfg, w, l, Head(p)); }

      w, l, p := Stores(), RevokeSign(id, cid, key, was), Tail(p);
      env.Wait(Head(p).delay);
      if !Head(p).outcome.Ok? {
        res := Failure(Internal);
        Turn(cfg, w, l, p, Conf(Stores(), Done(res))) by { RevokeGoes(cfg, w, l, Head(p)); }
        return;
      }
      var jwt := SignAccountClaims(cfg.operator, WithRevocation(was.claims, key, env.clock), env.clock);
      Turn(cfg, w, l, p, Conf(Stores(), RevokeWrite(id, cid, was, jwt))) by { RevokeGoes(cfg, w, l, Head(p)); }

      res := WriteMarkPush(id, cid, was, jwt, Tail(p));
    }

    /** Both writes, then the push. */
    method WriteMarkPush(id: Id, cid: Id, was: AccountJwt, jwt: AccountJwt, plan: seq<Choice>) returns (res: Result)
      requires Valid()
      modifies env, db, tenants.resolver
      ensures Conf(Stores(), Done(res)) == Exec(cfg, old(Stores()), RevokeWrite(id, cid, was, jwt), plan)
    {
      hide Exec, Go, StatusSet, JwtSet, LimitsSet, SeedSet, RevokedAtSet, Pushed, Removed;
      var p := plan;
      ghost var w, l := Stores(), RevokeWrite(id, cid, was, jwt);
      env.Wait(Head(p).delay);
      var ok := db.UpdateJwt(id, jwt, Head(p).outcome);
      if !ok {
        res := Failure(Internal);
        Turn(cfg, w, l, p, Conf(Stores(), Done(res))) by { RevokeGoes(cfg, w, l, Head(p)); }
        return;
      }
      Turn(cfg, w, l, p, Conf(Stores(), RevokeMark(id, cid, jwt))) by { RevokeGoes(cfg, w, l, Head(p)); }

      w, l, p := Stores(), RevokeMark(id, cid, jwt), Tail(p);
      env.Wait(Head(p).delay);
      ok := db.RevokeCredential(cid, env.clock, Head(p).outcome);
      if !ok {
        res := Failure(Internal);
        Turn(cfg, w, l, p, Conf(Stores(), Done(res))) by { RevokeGoes(cfg, w, l, Head(p)); }
        return;
      }
      Turn(cfg, w, l, p, Conf(Stores(), Protocol.PushAccountJwt(id, jwt))) by { RevokeGoes(cfg, w, l, Head(p)); }
      res := tenants.PushAccountJwt(id, jwt, Tail(p));
    }
  }
}
