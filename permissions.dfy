/** The permission pre-checks: `beforeCheckPermissions` (a `before` hook)
    and `optionsGetter` (per-project options with the same checks). Glob
    matching (`micromatch.isMatch`) is a parameter. */
module Permissions {

  import opened Wrappers
  import opened Common
  import opened Interface

  /** Which refs and paths a gateway accepts; each restriction is optional. */
  datatype Restrictions = Restrictions(
    allowedRefs: Option<seq<string>>,
    forbiddenRefs: Option<seq<string>>,
    pathMatch: Option<string>)

  const REF_REFUSED := "This ref is not allowed."
  const PATH_REFUSED := "This path is not allowed."

  /** `list.indexOf(x)`: the first position of `x`, or -1. */
  function IndexOfItem(list: seq<string>, x: string): (i: int)
    ensures -1 <= i < |list|
    ensures i >= 0 <==> x in list
    ensures i >= 0 ==> list[i] == x && forall j :: 0 <= j < i ==> list[j] != x
  {
    if list == [] then -1
    else if list[0] == x then 0
    else
      var i := IndexOfItem(list[1..], x);
      if i < 0 then -1 else i + 1
  }

  /** The ref condition as written: a truthy ref that is missing from the
      allow-list or present in the deny-list. */
  predicate RefRefused(x: Restrictions, ref: Option<string>)
  {
    && Given(ref)
    && ((x.allowedRefs.Some? && IndexOfItem(x.allowedRefs.value, ref.value) < 0) ||
        (x.forbiddenRefs.Some? && IndexOfItem(x.forbiddenRefs.value, ref.value) >= 0))
  }

  /** The path condition as written: a truthy path, a truthy pattern, and no match. */
  predicate PathRefused(x: Restrictions, isMatch: (string, string) -> bool, path: Option<string>)
  {
    Given(path) && Given(x.pathMatch) && !isMatch(path.value, x.pathMatch.value)
  }

  /** `beforeCheckPermissions(restrictions)(data)`: the ref check, then the
      path check; resolves to nothing or throws an unauthorized error.
      `optionsGetter` repeats the same two checks. */
  function BeforeCheckPermissions(x: Restrictions, isMatch: (string, string) -> bool, t: BeforeData): (r: Res<()>)
    // A ref passes iff it is empty or absent, or it is on the allow-list
    // (when there is one) and not on the deny-list (when there is one).
    ensures Given(t.ref) && x.forbiddenRefs.Some? && t.ref.value in x.forbiddenRefs.value ==>
      r == Err(Unauthorized(REF_REFUSED))
    ensures Given(t.ref) && x.allowedRefs.Some? && t.ref.value !in x.allowedRefs.value ==>
      r == Err(Unauthorized(REF_REFUSED))
    // The ref is judged before the path.
    ensures r == Err(Unauthorized(REF_REFUSED)) || r == Err(Unauthorized(PATH_REFUSED)) || r == Ok(())
    ensures r == Ok(()) <==>
      && (!Given(t.ref) ||
          ((x.allowedRefs.None? || t.ref.value in x.allowedRefs.value) &&
           (x.forbiddenRefs.None? || t.ref.value !in x.forbiddenRefs.value)))
      && (!Given(t.path) || !Given(x.pathMatch) || isMatch(t.path.value, x.pathMatch.value))
    ensures r == Err(Unauthorized(REF_REFUSED)) ==>
      && Given(t.ref)
      && ((x.allowedRefs.Some? && t.ref.value !in x.allowedRefs.value) ||
          (x.forbiddenRefs.Some? && t.ref.value in x.forbiddenRefs.value))
    ensures r == Err(Unauthorized(PATH_REFUSED)) ==>
      Given(t.path) && Given(x.pathMatch) && !isMatch(t.path.value, x.pathMatch.value)
  {
    if RefRefused(x, t.ref) then Err(Unauthorized(REF_REFUSED))
    else if PathRefused(x, isMatch, t.path) then Err(Unauthorized(PATH_REFUSED))
    else Ok(())
  }

  /** What `optionsGetter` is configured with; `config` stands for the
      `{authCheck, authLogin, gitlab}` it hands back. */
  datatype GetterOptions<C> = GetterOptions(projectId: string, restrictions: Restrictions, config: C)

  /** `optionsGetter(options)(arg)`: nothing for another project (without
      any check), otherwise the same checks as `beforeCheckPermissions`
      and then the configuration. */
  function OptionsGetter<C>(o: GetterOptions<C>, isMatch: (string, string) -> bool,
                            projectId: string, t: BeforeData): (r: Res<Option<C>>)
    ensures o.projectId != projectId ==> r == Ok(None)
    ensures o.projectId == projectId && BeforeCheckPermissions(o.restrictions, isMatch, t).Err? ==>
      r == Err(BeforeCheckPermissions(o.restrictions, isMatch, t).error)
    ensures o.projectId == projectId && BeforeCheckPermissions(o.restrictions, isMatch, t).Ok? ==> r == Ok(Some(o.config))
  {
    if o.projectId != projectId then Ok(None)
    else
      var _ :- BeforeCheckPermissions(o.restrictions, isMatch, t);
      Ok(Some(o.config))
  }

  /** Narrowing the restrictions never admits more: with the allow-list
      shrunk, the deny-list grown, a ref refused before is refused still. */
  lemma RestrictionsMonotone(x: Restrictions, y: Restrictions, isMatch: (string, string) -> bool, t: BeforeData)
    requires x.pathMatch == y.pathMatch
    requires x.allowedRefs.Some? ==> y.allowedRefs.Some? && forall s :: s in y.allowedRefs.value ==> s in x.allowedRefs.value
    requires x.forbiddenRefs.Some? ==> y.forbiddenRefs.Some? && forall s :: s in x.forbiddenRefs.value ==> s in y.forbiddenRefs.value
    ensures BeforeCheckPermissions(y, isMatch, t) == Ok(()) ==> BeforeCheckPermissions(x, isMatch, t) == Ok(())
  {
  }
}
