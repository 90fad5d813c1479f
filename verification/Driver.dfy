/** The database connection: statements run one after another, until the first that fails. */
module Driver {
  import opened Wrappers
  import opened Sql
  import opened State

  /** What a request carries through every call: which of its steps the environment makes fail. */
  class Context {
    const faults: Faults
    var clock: nat

    constructor (faults: Faults)
      ensures this.faults == faults && clock == 0
    {
      this.faults := faults;
      clock := 0;
    }

    /** One step goes by. */
    method Tick() returns (failed: bool)
      modifies this
      ensures failed == faults(old(clock)) && clock == old(clock) + 1
    {
      failed := faults(clock);
      clock := clock + 1;
    }
  }

  class Database {
    var world: World

    constructor (world: World)
      ensures this.world == world
    {
      this.world := world;
    }

    method Connect(ctx: Context, on: Session) returns (ok: bool)
      modifies ctx
      ensures ctx.clock == old(ctx.clock) + 1
      ensures ok <==> !ctx.faults(old(ctx.clock)) && on.database in world.databases
    {
      var failed := ctx.Tick();
      ok := !failed && on.database in world.databases;
    }

    /** One statement: a rejected or failed one has no effect. */
    method Run(ctx: Context, on: Session, stmt: Stmt) returns (ok: bool)
      modifies this, ctx
      ensures ctx.clock == old(ctx.clock) + 1
      ensures ok <==> !ctx.faults(old(ctx.clock)) && Apply(old(world), on, stmt).Applied?
      ensures world == if ok then Apply(old(world), on, stmt).world else old(world)
    {
      var failed := ctx.Tick();
      ok := false;
      if !failed {
        match Apply(world, on, stmt)
        case Rejected =>
        case Applied(w) => world, ok := w, true;
      }
    }

    /** A batch on one short-lived connection. `s` stands for the store, which it leaves alone. */
    method Exec(ctx: Context, on: Session, stmts: seq<Stmt>, ghost s: State) returns (ok: bool)
      requires s.world == world
      modifies this, ctx
      ensures Execute(Batch(on, stmts), s, ctx.faults, old(ctx.clock)) == Outcome(s.(world := world), ok, ctx.clock)
    {
      hide Apply;
      ghost var start := ctx.clock + 1;
      var connected := Connect(ctx, on);
      if !connected {
        return false;
      }
      for i := 0 to |stmts|
        invariant Execute(Statements(on, stmts[i..]), s.(world := world), ctx.faults, ctx.clock)
               == Execute(Statements(on, stmts), s, ctx.faults, start)
      {
        ghost var before, clock := s.(world := world), ctx.clock;
        assert stmts[i..][0] == stmts[i] && stmts[i..][1..] == stmts[i + 1..];
        ok := Run(ctx, on, stmts[i]);
        StatementStep(on, stmts[i..], before, ctx.faults, clock);
        if !ok {
          return;
        }
      }
      ok := true;
    }

    /** A probe of a system catalog; None when it cannot be read. */
    method Exists(ctx: Context, on: Session, catalog: Catalog, name: string) returns (found: Option<bool>)
      modifies ctx
      ensures ctx.clock == old(ctx.clock) + 1
      ensures found == if ctx.faults(old(ctx.clock)) || on.database !in world.databases then None
          else Some(Listed(world, catalog, name))
    {
      var failed := ctx.Tick();
      found := if failed || on.database !in world.databases then None else Some(Listed(world, catalog, name));
    }
  }
}
