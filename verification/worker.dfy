/**
 The set of pipelines the media worker keeps (server/src/media/worker.ts, MediaWorker): every poll
 starts the missing ones, within the stream limit, and stops those whose camera is gone.
 */
module Worker {
  import opened Health
  import opened Pipeline

  datatype CameraRow = CameraRow(id: Id, settings: Settings)

  /** The cameras a poll keeps, going down the rows while fewer than `limit` are taken. */
  function Chosen(cams: seq<CameraRow>, limit: int): set<Id> {
    if cams == [] then {}
    else
      var before := Chosen(cams[..|cams| - 1], limit);
      if |before| >= limit then before else before + {cams[|cams| - 1].id}
  }

  function Ids(cams: seq<CameraRow>): set<Id> {
    set c | c in cams :: c.id
  }

  function Max(a: int, b: int): int {
    if a < b then b else a
  }

  lemma IdsSnoc(cams: seq<CameraRow>)
    requires cams != []
    ensures var m := |cams| - 1; cams[..m][..m] == cams[..m] && cams[..m + 1] == cams
                                 && Ids(cams) == Ids(cams[..m]) + {cams[m].id}
  {
    assert cams == cams[..|cams| - 1] + [cams[|cams| - 1]];
  }

  /** The cameras kept are those of a first stretch of the rows: all of them, or as many as the limit allows (none when
      it is not positive). */
  lemma {:induction false} ChosenIsPrefix(cams: seq<CameraRow>, limit: int) returns (n: nat)
    ensures n <= |cams| && Chosen(cams, limit) == Ids(cams[..n])
    ensures |Chosen(cams, limit)| <= Max(limit, 0)
    ensures n == |cams| || |Chosen(cams, limit)| == Max(limit, 0)
  {
    n := 0;
    if cams != [] {
      var m := |cams| - 1;
      n := ChosenIsPrefix(cams[..m], limit);
      assert cams[..m][..n] == cams[..n];
      if |Chosen(cams[..m], limit)| < limit {
        n := m + 1;
        IdsSnoc(cams);
      }
    }
  }

  /** A pipeline as it is after its first start. */
  function Opened(): Pipe {
    Started(NEW_PIPE)
  }

  /** The map holds the pipelines it held and one for each active camera. */
  ghost predicate Grown(m: map<Id, CameraPipeline>, was: map<Id, CameraPipeline>, active: set<Id>) {
    m.Keys == was.Keys + active && forall id :: id in was ==> m[id] == was[id]
  }

  lemma GrownNot(m: map<Id, CameraPipeline>)
    ensures Grown(m, m, {})
  {
  }

  lemma GrownBy(m: map<Id, CameraPipeline>, m': map<Id, CameraPipeline>, was: map<Id, CameraPipeline>,
                active: set<Id>, id: Id)
    requires Grown(m, was, active)
    requires if id in m then m' == m else id in m' && m' == m[id := m'[id]]
    ensures Grown(m', was, active + {id})
  {
  }

  /** The settings are those of one of the camera's rows. */
  ghost predicate FromRow(cams: seq<CameraRow>, id: Id, cfg: Settings) {
    exists k :: 0 <= k < |cams| && cams[k] == CameraRow(id, cfg)
  }

  lemma RowAt(cams: seq<CameraRow>, i: nat)
    requires i < |cams|
    ensures FromRow(cams, cams[i].id, cams[i].settings)
  {
  }

  class MediaWorker {
    var pipelines: map<Id, CameraPipeline>

    ghost predicate Valid()
      reads this
    {
      forall a, b :: a in pipelines && b in pipelines && pipelines[a] == pipelines[b] ==> a == b
    }

    constructor ()
      ensures Valid() && pipelines == map[]
    {
      pipelines := map[];
    }

    /** The first loop: a started pipeline for every chosen camera that has none. Only the map changes. */
    method StartMissing(cams: seq<CameraRow>, limit: int) returns (active: set<Id>)
      requires Valid()
      modifies this
      ensures Valid() && active == Chosen(cams, limit)
      ensures Grown(pipelines, old(pipelines), active)
      ensures forall id :: id in pipelines && id !in old(pipelines) ==>
                  fresh(pipelines[id]) && pipelines[id].Is(Opened()) && FromRow(cams, id, pipelines[id].cfg)
    {
      hide Opened, CameraPipeline.Contents, CameraPipeline.Is, Valid, Chosen, Grown, FromRow;
      active := {};
      var i := 0;
      ghost var was := pipelines;
      GrownNot(was);
      ChosenStep(cams, limit, 0);
      while i < |cams| && |active| < limit
        invariant 0 <= i <= |cams| && active == Chosen(cams[..i], limit)
        invariant Valid() && Grown(pipelines, was, active)
        invariant forall id :: id in pipelines && id !in was ==>
                    fresh(pipelines[id]) && pipelines[id].Is(Opened()) && FromRow(cams, id, pipelines[id].cfg)
      {
        ChosenStep(cams, limit, i);
        RowAt(cams, i);
        ghost var before := pipelines;
        if cams[i].id !in pipelines { StartOne(cams[i]); }
        GrownBy(before, pipelines, was, active, cams[i].id);
        active := active + {cams[i].id};
        i := i + 1;
      }
      ChosenStays(cams, limit, i);
    }

    method StartOne(cam: CameraRow)
      requires Valid() && cam.id !in pipelines
      modifies this
      ensures Valid() && cam.id in pipelines && pipelines == old(pipelines)[cam.id := pipelines[cam.id]]
      ensures fresh(pipelines[cam.id]) && pipelines[cam.id].Is(Opened()) && pipelines[cam.id].cfg == cam.settings
    {
      hide Started, CameraPipeline.Contents;
      var p := new CameraPipeline(cam.settings);
      p.Start();
      pipelines := pipelines[cam.id := p];
    }

    ghost function Gone(active: set<Id>): set<CameraPipeline>
      reads this
    {
      set id | id in pipelines && id !in active :: pipelines[id]
    }

    method StopOne(id: Id)
      requires id in pipelines
      modifies this, pipelines[id]
      ensures pipelines == old(pipelines) - {id}
      ensures old(pipelines)[id].Contents() == Stopped(old(pipelines[id].Contents()))
    {
      pipelines[id].Stop();
      pipelines := pipelines - {id};
    }

    /** The second loop: pipelines of other cameras are stopped and dropped. */
    method StopGone(active: set<Id>)
      requires Valid() && active <= pipelines.Keys
      modifies this, Gone(active)
      ensures Valid() && pipelines.Keys == active
      ensures forall id :: id in active ==> pipelines[id] == old(pipelines)[id]
      ensures forall id :: id in old(pipelines) && id !in active ==>
                old(pipelines)[id].Contents() == Stopped(old(pipelines[id].Contents()))
    {
      hide Stopped, CameraPipeline.Contents;
      var rest := pipelines.Keys;
      ghost var all := pipelines;
      while rest != {}
        invariant rest <= pipelines.Keys && active <= pipelines.Keys
        invariant forall id :: id in pipelines ==> id in active || id in rest
        invariant forall id :: id in pipelines ==> id in all && pipelines[id] == all[id]
        invariant forall id :: id in rest && id !in active ==> all[id].Contents() == old(all[id].Contents())
        invariant forall id :: id in all && id !in pipelines ==> all[id].Contents() == Stopped(old(all[id].Contents()))
      {
        var id :| id in rest;
        if id !in active { StopOne(id); }
        rest := rest - {id};
      }
    }

    /** Cameras that stay keep the pipeline they have, untouched; new ones get a started one; the others are stopped. */
    method Reconcile(cams: seq<CameraRow>, limit: int)
      requires Valid()
      modifies this, pipelines.Values
      ensures Valid() && pipelines.Keys == Chosen(cams, limit)
      ensures forall id :: id in pipelines && id in old(pipelines) ==>
                pipelines[id] == old(pipelines)[id] && pipelines[id].Contents() == old(pipelines[id].Contents())
      ensures forall id :: id in pipelines && id !in old(pipelines) ==>
                  fresh(pipelines[id]) && pipelines[id].Is(Opened()) && FromRow(cams, id, pipelines[id].cfg)
      ensures forall id :: id in old(pipelines) && id !in pipelines ==>
                old(pipelines)[id].Contents() == Stopped(old(pipelines[id].Contents()))
    {
      hide Opened, Stopped, CameraPipeline.Contents, CameraPipeline.Is, FromRow;
      var active := StartMissing(cams, limit);
      StopGone(active);
    }
  }

  lemma {:induction false} ChosenStep(cams: seq<CameraRow>, limit: int, i: nat)
    requires i <= |cams|
    ensures Chosen([], limit) == {}
    ensures i < |cams| && |Chosen(cams[..i], limit)| < limit ==>
              Chosen(cams[..i + 1], limit) == Chosen(cams[..i], limit) + {cams[i].id}
  {
    if i < |cams| { assert cams[..i + 1][..i] == cams[..i]; }
  }

  /** Past the limit no more rows are looked at. */
  lemma {:induction false} ChosenStays(cams: seq<CameraRow>, limit: int, n: nat)
    requires n <= |cams| && (n == |cams| || |Chosen(cams[..n], limit)| >= limit)
    ensures Chosen(cams, limit) == Chosen(cams[..n], limit)
    decreases |cams|
  {
    if n < |cams| {
      assert cams[..|cams| - 1][..n] == cams[..n];
      ChosenStays(cams[..|cams| - 1], limit, n);
    } else {
      assert cams[..n] == cams;
    }
  }
}
