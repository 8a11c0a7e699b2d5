/** The request validation of the profile routes: a chain of
    `check(param, msg).not().isEmpty()` checks read back with
    `validationResult(req).array()`. Only the request body is validated,
    though `check` also looks in the query, route parameters, headers and
    cookies. A body value is a string, so `isEmpty` fails exactly on "" (an
    absent key reads as "" as well). */
module Validation {
  import opened ProfileData

  /** One `check(param, msg).not().isEmpty()`, applied here to the body's
      value of `param` only. */
  datatype Requirement = Requirement(param: string, value: string, msg: string)

  predicate Fails(q: Requirement) {
    !Truthy(q.value)
  }

  function ErrorOf(q: Requirement): FieldError {
    FieldError(q.param, q.msg)
  }

  /** The errors of a chain: one per failing check, in chain order. */
  function Failures(qs: seq<Requirement>): (r: seq<FieldError>)
    ensures |r| <= |qs|
    ensures r == [] <==> forall i :: 0 <= i < |qs| ==> !Fails(qs[i])
    ensures forall i :: 0 <= i < |qs| && Fails(qs[i]) ==> ErrorOf(qs[i]) in r
    ensures forall e :: e in r ==> exists i :: 0 <= i < |qs| && Fails(qs[i]) && e == ErrorOf(qs[i])
  {
    if qs == [] then []
    else
      var rest := Failures(qs[1..]);
      assert forall i :: 1 <= i < |qs| ==> qs[i] == qs[1..][i - 1];
      if Fails(qs[0]) then [ErrorOf(qs[0])] + rest else rest
  }

  /** The errors of one check on its own. */
  function Check(q: Requirement): (r: seq<FieldError>)
    ensures |r| == if Fails(q) then 1 else 0
    ensures forall e :: e in r <==> Fails(q) && e == ErrorOf(q)
  {
    if Fails(q) then [ErrorOf(q)] else []
  }

  /** A chain of three checks reports each failing one, in order. */
  lemma FailuresOfThree(a: Requirement, b: Requirement, c: Requirement)
    ensures Failures([a, b, c]) == Check(a) + Check(b) + Check(c)
  {
    assert [a, b, c][1..] == [b, c];
    assert [b, c][1..] == [c];
    assert [c][1..] == [];
    assert Failures([c]) == Check(c);
    assert Failures([b, c]) == Check(b) + Check(c);
  }

  /** The chain of `POST api/profile`: the result is empty exactly when both
      `status` and `skills` are given, and each missing one is reported. */
  function ValidateProfile(body: ProfileBody): (r: seq<FieldError>)
    ensures r == [] <==> Truthy(body.status) && Truthy(body.skills)
    ensures FieldError("status", "Status is required") in r <==> !Truthy(body.status)
    ensures FieldError("skills", "Skills is required") in r <==> !Truthy(body.skills)
    ensures |r| == (if Truthy(body.status) then 0 else 1) + (if Truthy(body.skills) then 0 else 1)
  {
    var qs := [Requirement("status", body.status, "Status is required"),
               Requirement("skills", body.skills, "Skills is required")];
    var r := Failures(qs);
    assert qs[1..] == [qs[1]];
    assert qs[1..][1..] == [];
    r
  }

  /** The chain shared by adding and by updating an experience entry: the
      result is empty exactly when `title`, `company` and `from` are given,
      and each missing one is reported. */
  function ValidateExperience(body: ExperienceBody): (r: seq<FieldError>)
    ensures r == [] <==> Truthy(body.title) && Truthy(body.company) && Truthy(body.from)
    ensures FieldError("title", "Title is required") in r <==> !Truthy(body.title)
    ensures FieldError("company", "company is required") in r <==> !Truthy(body.company)
    ensures FieldError("from", "From date is required") in r <==> !Truthy(body.from)
    ensures |r| == (if Truthy(body.title) then 0 else 1) + (if Truthy(body.company) then 0 else 1)
                   + (if Truthy(body.from) then 0 else 1)
  {
    var q0 := Requirement("title", body.title, "Title is required");
    var q1 := Requirement("company", body.company, "company is required");
    var q2 := Requirement("from", body.from, "From date is required");
    FailuresOfThree(q0, q1, q2);
    Failures([q0, q1, q2])
  }

  /** `errors.array()` of `POST api/profile` lists the `status` error before
      the `skills` error. */
  lemma ProfileErrorsInOrder(body: ProfileBody)
    ensures ValidateProfile(body) == Check(Requirement("status", body.status, "Status is required"))
                                     + Check(Requirement("skills", body.skills, "Skills is required"))
  {
    var qs := [Requirement("status", body.status, "Status is required"),
               Requirement("skills", body.skills, "Skills is required")];
    assert qs[1..] == [qs[1]];
    assert qs[1..][1..] == [];
  }

  /** The experience chain lists its errors as `title`, `company`, `from`. */
  lemma ExperienceErrorsInOrder(body: ExperienceBody)
    ensures ValidateExperience(body) == Check(Requirement("title", body.title, "Title is required"))
                                        + Check(Requirement("company", body.company, "company is required"))
                                        + Check(Requirement("from", body.from, "From date is required"))
  {
    FailuresOfThree(Requirement("title", body.title, "Title is required"),
                    Requirement("company", body.company, "company is required"),
                    Requirement("from", body.from, "From date is required"));
  }
}
