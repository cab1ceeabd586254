/**
 * The controller's handlers over the service catalog (App.tsx): saving a
 * package (insert or replace by id) and deleting one after confirmation.
 */
module Catalog {
  import opened Types
  import opened Lists

  function HasServiceId(id: string): StudioService -> bool {
    (s: StudioService) => s.id == id
  }

  function OtherId(id: string): StudioService -> bool {
    (s: StudioService) => s.id != id
  }

  /** Some package of the catalog carries this id. */
  predicate Listed(services: seq<StudioService>, id: string) {
    exists i :: 0 <= i < |services| && services[i].id == id
  }

  /** Every entry with the id of `svc` replaced by `svc`, in place. */
  function ReplaceById(services: seq<StudioService>, svc: StudioService): (r: seq<StudioService>)
    ensures |r| == |services|
    ensures forall i :: 0 <= i < |r| && services[i].id == svc.id ==> r[i] == svc
    ensures forall i :: 0 <= i < |r| && services[i].id != svc.id ==> r[i] == services[i]
  {
    seq(|services|, i requires 0 <= i < |services| => if services[i].id == svc.id then svc else services[i])
  }

  /**
   * `saveService`: an upsert by id. A package whose id is listed replaces
   * every entry with that id where it stands; a new id goes at the end.
   */
  function SaveService(services: seq<StudioService>, svc: StudioService): (r: seq<StudioService>)
    ensures Listed(services, svc.id) ==>
      && |r| == |services|
      && (forall i :: 0 <= i < |r| && services[i].id == svc.id ==> r[i] == svc)
      && (forall i :: 0 <= i < |r| && services[i].id != svc.id ==> r[i] == services[i])
    ensures !Listed(services, svc.id) ==> r == services + [svc]
    ensures svc in r
  {
    if Find(services, HasServiceId(svc.id)).Some? then ReplaceById(services, svc)
    else services + [svc]
  }

  /**
   * `deleteService`: when the admin confirms, every entry with that id is
   * removed and the rest keep their order; otherwise nothing changes.
   */
  function DeleteService(services: seq<StudioService>, id: string, confirm: bool): (r: seq<StudioService>)
    ensures !confirm ==> r == services
    ensures confirm ==>
      && IsSubseq(r, services)
      && (forall s :: s in r <==> s in services && s.id != id)
      && forall s :: multiset(r)[s] == if s.id != id then multiset(services)[s] else 0
  {
    if confirm then
      var p := OtherId(id);
      FilterIsSubseq(services, p);
      forall s ensures multiset(Filter(services, p))[s] == if p(s) then multiset(services)[s] else 0 {
        FilterCounts(services, p, s);
      }
      Filter(services, p)
    else services
  }

  /** Saving the same package twice is the same as saving it once. */
  lemma SaveServiceIdempotent(services: seq<StudioService>, svc: StudioService)
    ensures SaveService(SaveService(services, svc), svc) == SaveService(services, svc)
  {
    var once := SaveService(services, svc);
    var k :| 0 <= k < |once| && once[k] == svc;
    assert Listed(once, svc.id);
    var twice := SaveService(once, svc);
    forall i | 0 <= i < |once| ensures twice[i] == once[i] {}
  }

  /** After saving, looking the id up finds the saved package. */
  lemma SaveServiceThenFind(services: seq<StudioService>, svc: StudioService)
    ensures Find(SaveService(services, svc), HasServiceId(svc.id)) == Some(svc)
  {
    var r := SaveService(services, svc);
    assert svc in r;
    var f := Find(r, HasServiceId(svc.id));
    var i :| IsFirst(r, HasServiceId(svc.id), i) && r[i] == f.value;
    if Listed(services, svc.id) {
      assert services[i].id == svc.id;
    }
  }

  lemma {:induction false} FilterReplaced(services: seq<StudioService>, svc: StudioService)
    ensures Filter(ReplaceById(services, svc), OtherId(svc.id)) == Filter(services, OtherId(svc.id))
  {
    if |services| > 0 {
      FilterReplaced(services[1..], svc);
      assert ReplaceById(services, svc)[1..] == ReplaceById(services[1..], svc);
    }
  }

  /**
   * Deleting the id just saved gives what deleting it before the save would
   * have given: an insert is undone, and a replacement leaves no trace.
   */
  lemma DeleteAfterSave(services: seq<StudioService>, svc: StudioService)
    ensures DeleteService(SaveService(services, svc), svc.id, true) == DeleteService(services, svc.id, true)
  {
    if Listed(services, svc.id) {
      FilterReplaced(services, svc);
    } else {
      FilterAppend(services, [svc], OtherId(svc.id));
      assert Filter([svc], OtherId(svc.id)) == [];
    }
  }
}
