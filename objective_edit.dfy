/**
 * The edit form of the objective modal (ObjectiveModal/EditObjectiveModal/useEdit.ts):
 * a draft projected from the objective being edited, merged with partial
 * updates, and reset to the projection captured when the form was opened.
 */
module ObjectiveEdit {
  import opened Wrappers

  /** The schema's `type`: an objective is set for a week or for a month. */
  datatype PeriodType = Week | Month

  /** The schema's `objective` object: which week or month of which year. */
  datatype Period = Period(periodType: PeriodType, year: int, number: int)

  /** An objective as stored; `uuid` and `content` stand for the fields the form does not edit. */
  datatype AgendaObjective = AgendaObjective(uuid: string, content: string, title: string, objective: Period)

  /** The form's value: exactly the schema's two fields. */
  datatype EditObjectiveForm = EditObjectiveForm(title: string, objective: Period)

  /** A `Partial<EditObjectiveForm>`: a field is either named (`Some`) or absent. */
  datatype FormPatch = FormPatch(title: Option<string>, objective: Option<Period>)

  const EmptyPatch: FormPatch := FormPatch(None, None)

  /** `_initialData`: the objective's title and period, and nothing else. */
  function Project(o: AgendaObjective): (f: EditObjectiveForm)
    ensures f.title == o.title && f.objective == o.objective
  {
    EditObjectiveForm(o.title, o.objective)
  }

  /** The projection forgets every other field of the objective. */
  lemma ProjectionForgets(a: AgendaObjective, b: AgendaObjective)
    requires a.title == b.title && a.objective == b.objective
    ensures Project(a) == Project(b)
  {
  }

  /** `{ ..._data, ...data }`: the fields named in the patch win, the others are kept. */
  function Merge(form: EditObjectiveForm, p: FormPatch): (r: EditObjectiveForm)
    ensures r.title == if p.title.Some? then p.title.value else form.title
    ensures r.objective == if p.objective.Some? then p.objective.value else form.objective
  {
    EditObjectiveForm(p.title.GetOr(form.title), p.objective.GetOr(form.objective))
  }

  /** Merging nothing changes nothing. */
  lemma MergeEmpty(form: EditObjectiveForm)
    ensures Merge(form, EmptyPatch) == form
  {
  }

  /** Merging the same patch twice is merging it once. */
  lemma MergeIdempotent(form: EditObjectiveForm, p: FormPatch)
    ensures Merge(Merge(form, p), p) == Merge(form, p)
  {
  }

  /** A field is left as it was exactly when the patch does not name it or names its current value. */
  lemma MergeKeepsIff(form: EditObjectiveForm, p: FormPatch)
    ensures Merge(form, p).title == form.title <==> (p.title.None? || p.title.value == form.title)
    ensures Merge(form, p).objective == form.objective <==> (p.objective.None? || p.objective.value == form.objective)
  {
  }

  /** Two patches as one: the later patch's fields win. */
  function Combine(p: FormPatch, q: FormPatch): FormPatch
  {
    FormPatch(if q.title.Some? then q.title else p.title,
              if q.objective.Some? then q.objective else p.objective)
  }

  /** Successive merges compose: merging p then q is merging their combination. */
  lemma MergeCompose(form: EditObjectiveForm, p: FormPatch, q: FormPatch)
    ensures Merge(Merge(form, p), q) == Merge(form, Combine(p, q))
  {
  }

  /** Updates to disjoint fields both survive, in either order. */
  lemma DisjointUpdatesSurvive(form: EditObjectiveForm, title: string, objective: Period)
    ensures var a := FormPatch(Some(title), None);
            var b := FormPatch(None, Some(objective));
      && Merge(Merge(form, a), b) == EditObjectiveForm(title, objective)
      && Merge(Merge(form, b), a) == EditObjectiveForm(title, objective)
  {
  }

  /**
   * The draft after a run of `updateFormData` calls: each functional setter
   * merges into the draft left by the one before.
   */
  function ApplyAll(form: EditObjectiveForm, ps: seq<FormPatch>): (r: EditObjectiveForm)
    ensures r.title == form.title || exists i :: 0 <= i < |ps| && ps[i].title == Some(r.title)
    ensures r.objective == form.objective || exists i :: 0 <= i < |ps| && ps[i].objective == Some(r.objective)
    decreases |ps|
  {
    if ps == [] then form else ApplyAll(Merge(form, ps[0]), ps[1..])
  }

  /** The combination of a run of patches, later ones winning. */
  function CombineAll(ps: seq<FormPatch>): (r: FormPatch)
    decreases |ps|
  {
    if ps == [] then EmptyPatch else Combine(ps[0], CombineAll(ps[1..]))
  }

  /** A run of updates is one merge of the combined patch. */
  lemma {:induction false} ApplyAllIsOneMerge(form: EditObjectiveForm, ps: seq<FormPatch>)
    ensures ApplyAll(form, ps) == Merge(form, CombineAll(ps))
    decreases |ps|
  {
    if ps != [] {
      ApplyAllIsOneMerge(Merge(form, ps[0]), ps[1..]);
      MergeCompose(form, ps[0], CombineAll(ps[1..]));
    }
  }

  /** A field that no update in the run names keeps its value. */
  lemma {:induction false} UnnamedFieldsSurvive(form: EditObjectiveForm, ps: seq<FormPatch>)
    ensures (forall i :: 0 <= i < |ps| ==> ps[i].title.None?) ==> ApplyAll(form, ps).title == form.title
    ensures (forall i :: 0 <= i < |ps| ==> ps[i].objective.None?) ==> ApplyAll(form, ps).objective == form.objective
    decreases |ps|
  {
    if ps != [] {
      UnnamedFieldsSurvive(Merge(form, ps[0]), ps[1..]);
    }
  }

  /** A field is set by the last update in the run that names it. */
  lemma {:induction false} LastUpdateWins(form: EditObjectiveForm, ps: seq<FormPatch>, k: nat)
    requires k < |ps|
    ensures ps[k].title.Some? && (forall i :: k < i < |ps| ==> ps[i].title.None?)
            ==> ApplyAll(form, ps).title == ps[k].title.value
    ensures ps[k].objective.Some? && (forall i :: k < i < |ps| ==> ps[i].objective.None?)
            ==> ApplyAll(form, ps).objective == ps[k].objective.value
    decreases |ps|
  {
    if k == 0 {
      UnnamedFieldsSurvive(Merge(form, ps[0]), ps[1..]);
    } else {
      LastUpdateWins(Merge(form, ps[0]), ps[1..], k - 1);
    }
  }

  /**
   * The state `useEdit` keeps for one open form: the captured projection
   * `initial`, and the draft `formData` that updates and reset replace.
   */
  class EditObjectiveStore {
    const initial: EditObjectiveForm
    var formData: EditObjectiveForm

    constructor (initialData: AgendaObjective)
      ensures initial == Project(initialData) && formData == initial
    {
      initial := Project(initialData);
      formData := Project(initialData);
    }

    method UpdateFormData(p: FormPatch)
      modifies this
      ensures formData == Merge(old(formData), p)
    {
      formData := EditObjectiveForm(p.title.GetOr(formData.title), p.objective.GetOr(formData.objective));
    }

    method Reset()
      modifies this
      ensures formData == initial
    {
      formData := initial;
    }

    /** `edit`: its body is commented out, so it does nothing. */
    method Edit()
      ensures unchanged(this)
    {
    }
  }
}
