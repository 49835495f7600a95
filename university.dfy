/** The admin university handlers: read-through caching of one university,
    guarded update with ownership check and cache invalidation, and the
    top-down cascading soft-delete university -> curriculum tracks
    (CurrentPursuing) -> semesters -> subjects. */
module Universities {
  import opened Common

  /** A stored document: its own fields and the soft-delete flag. */
  datatype Doc<T> = Doc(fields: T, isDeleted: bool)

  datatype UniversityFields = UniversityFields(universityName: string, universityLogo: Option<string>, adminId: Id)
  /** A curriculum track: the university it belongs to and its semester ids. */
  datatype PursuingFields = PursuingFields(universityId: Id, semesters: seq<Id>)
  datatype SemesterFields = SemesterFields(subjects: seq<Id>)
  /** A subject's own fields play no part in these handlers. */
  datatype SubjectFields = SubjectFields
  datatype CustomerDetailsFields = CustomerDetailsFields(universityId: Id)

  type University = Doc<UniversityFields>

  /** The validated body of create and update (createUniversitySchema). */
  datatype UniversityInput = UniversityInput(universityName: string)

  /** What the cache holds: one university under its own key, or a list. */
  datatype CachedValue = OneUniversity(university: University) | UniversityList(universities: seq<University>)

  const LIST_KEY := "universities-list"
  const KEY_PREFIX := "university-"

  function CacheKey(id: Id): string { KEY_PREFIX + id }

  /** Distinct universities have distinct keys, and no university key is the list key. */
  lemma CacheKeysDistinct(a: Id, b: Id)
    ensures CacheKey(a) == CacheKey(b) <==> a == b
    ensures CacheKey(a) != LIST_KEY
  {
    if CacheKey(a) == CacheKey(b) {
      assert a == CacheKey(a)[|KEY_PREFIX|..];
      assert b == CacheKey(b)[|KEY_PREFIX|..];
    }
    assert CacheKey(a)[9] == 'y' && LIST_KEY[9] == 'i';
  }

  /** `table` with every document whose id is in `ids` marked deleted;
      nothing is added or removed and no other field changes. */
  function SoftDeleted<T>(table: map<Id, Doc<T>>, ids: set<Id>): (r: map<Id, Doc<T>>)
    ensures r.Keys == table.Keys
    ensures forall id :: id in table ==> r[id].fields == table[id].fields
    ensures forall id :: id in table ==> r[id].isDeleted == (table[id].isDeleted || id in ids)
  {
    map id | id in table :: if id in ids then table[id].(isDeleted := true) else table[id]
  }

  /** Marking one more document deleted extends the marked set by that id. */
  lemma SoftDeletedStep<T>(table: map<Id, Doc<T>>, ids: set<Id>, id: Id)
    requires id in table
    ensures SoftDeleted(table, ids)[id := SoftDeleted(table, ids)[id].(isDeleted := true)] == SoftDeleted(table, ids + {id})
  {
    var lhs := SoftDeleted(table, ids)[id := SoftDeleted(table, ids)[id].(isDeleted := true)];
    var rhs := SoftDeleted(table, ids + {id});
    assert lhs.Keys == rhs.Keys;
    forall k | k in lhs ensures lhs[k] == rhs[k] {
      assert lhs[k].fields == rhs[k].fields && lhs[k].isDeleted == rhs[k].isDeleted;
    }
  }

  /** Marking one document deleted is the soft-delete of its id alone. */
  lemma SoftDeletedOne<T>(table: map<Id, Doc<T>>, id: Id)
    requires id in table
    ensures table[id := table[id].(isDeleted := true)] == SoftDeleted(table, {id})
  {
    var lhs := table[id := table[id].(isDeleted := true)];
    var rhs := SoftDeleted(table, {id});
    assert lhs.Keys == rhs.Keys;
    forall k | k in lhs ensures lhs[k] == rhs[k] {
      assert lhs[k].fields == rhs[k].fields && lhs[k].isDeleted == rhs[k].isDeleted;
    }
  }

  /** Two soft-deletes in a row are one soft-delete of both id sets. */
  lemma SoftDeletedTwice<T>(table: map<Id, Doc<T>>, a: set<Id>, b: set<Id>)
    ensures SoftDeleted(SoftDeleted(table, a), b) == SoftDeleted(table, a + b)
  {
    var lhs := SoftDeleted(SoftDeleted(table, a), b);
    var rhs := SoftDeleted(table, a + b);
    forall k | k in lhs ensures lhs[k] == rhs[k] {
      assert lhs[k].fields == rhs[k].fields && lhs[k].isDeleted == rhs[k].isDeleted;
    }
  }

  /** The tracks CurrentPursuing.find({ universityId }) returns: every stored
      track of the university, deleted or not. */
  function TracksOf(pursuing: map<Id, Doc<PursuingFields>>, universityId: Id): (r: set<Id>)
    ensures r <= pursuing.Keys
    ensures forall p :: p in pursuing ==> (p in r <==> pursuing[p].fields.universityId == universityId)
  {
    set p | p in pursuing && pursuing[p].fields.universityId == universityId
  }

  /** The stored semesters listed by one track (Semester.find({ _id: { $in } })):
      listed ids with no stored semester are dropped, and order and
      repetitions in the list do not matter. */
  function SemestersOfTrack(semesters: map<Id, Doc<SemesterFields>>, track: PursuingFields): (r: set<Id>)
    ensures r <= semesters.Keys
    ensures forall s :: s in semesters ==> (s in r <==> s in track.semesters)
  {
    set s | s in semesters && s in track.semesters
  }

  /** The stored subjects listed by one semester (Subject.updateMany({ _id: { $in } })):
      listed ids with no stored subject are dropped. */
  function SubjectsOfSemester(subjects: map<Id, Doc<SubjectFields>>, semester: SemesterFields): (r: set<Id>)
    ensures r <= subjects.Keys
    ensures forall x :: x in subjects ==> (x in r <==> x in semester.subjects)
  {
    set x | x in subjects && x in semester.subjects
  }

  /** The stored semesters listed by any of the given tracks. */
  function SemestersReached(pursuing: map<Id, Doc<PursuingFields>>, semesters: map<Id, Doc<SemesterFields>>, tracks: set<Id>): set<Id>
  {
    set s | s in semesters && exists p :: p in tracks && p in pursuing && s in pursuing[p].fields.semesters
  }

  /** The stored subjects listed by any of the given semesters. */
  function SubjectsReached(semesters: map<Id, Doc<SemesterFields>>, subjects: map<Id, Doc<SubjectFields>>, sems: set<Id>): set<Id>
  {
    set x | x in subjects && exists s :: s in sems && s in semesters && x in semesters[s].fields.subjects
  }

  lemma SemestersReachedStep(pursuing: map<Id, Doc<PursuingFields>>, semesters: map<Id, Doc<SemesterFields>>, tracks: set<Id>, p: Id)
    requires p in pursuing
    ensures SemestersReached(pursuing, semesters, tracks + {p})
         == SemestersReached(pursuing, semesters, tracks) + SemestersOfTrack(semesters, pursuing[p].fields)
  {
  }

  lemma SubjectsReachedStep(semesters: map<Id, Doc<SemesterFields>>, subjects: map<Id, Doc<SubjectFields>>, sems: set<Id>, s: Id)
    requires s in semesters
    ensures SubjectsReached(semesters, subjects, sems + {s})
         == SubjectsReached(semesters, subjects, sems) + SubjectsOfSemester(subjects, semesters[s].fields)
  {
  }

  /** The subjects reached depend only on the semesters' fields and the subject ids. */
  lemma SubjectsReachedFromFields(semesters: map<Id, Doc<SemesterFields>>, semesters': map<Id, Doc<SemesterFields>>,
                                  subjects: map<Id, Doc<SubjectFields>>, subjects': map<Id, Doc<SubjectFields>>, sems: set<Id>)
    requires semesters.Keys == semesters'.Keys && subjects.Keys == subjects'.Keys
    requires forall s :: s in semesters ==> semesters[s].fields == semesters'[s].fields
    ensures SubjectsReached(semesters, subjects, sems) == SubjectsReached(semesters', subjects', sems)
  {
  }

  lemma SubjectsReachedUnion(semesters: map<Id, Doc<SemesterFields>>, subjects: map<Id, Doc<SubjectFields>>, a: set<Id>, b: set<Id>)
    ensures SubjectsReached(semesters, subjects, a + b)
         == SubjectsReached(semesters, subjects, a) + SubjectsReached(semesters, subjects, b)
  {
  }

  /** The cascade reaches every descendant of the deleted university: each of
      its tracks, each stored semester such a track lists, and each stored
      subject such a semester lists. */
  lemma {:induction false} CascadeReachesDescendants(
    pursuing: map<Id, Doc<PursuingFields>>, semesters: map<Id, Doc<SemesterFields>>,
    subjects: map<Id, Doc<SubjectFields>>, universityId: Id, p: Id, s: Id, x: Id)
    requires p in pursuing && pursuing[p].fields.universityId == universityId
    requires s in semesters && s in pursuing[p].fields.semesters
    requires x in subjects && x in semesters[s].fields.subjects
    ensures var tracks := TracksOf(pursuing, universityId);
            var sems := SemestersReached(pursuing, semesters, tracks);
            && SoftDeleted(pursuing, tracks)[p].isDeleted
            && SoftDeleted(semesters, sems)[s].isDeleted
            && SoftDeleted(subjects, SubjectsReached(semesters, subjects, sems))[x].isDeleted
  {
    var tracks := TracksOf(pursuing, universityId);
    assert p in tracks;
    var sems := SemestersReached(pursuing, semesters, tracks);
    assert s in sems;
    assert x in SubjectsReached(semesters, subjects, sems);
  }

  /** The tables and the cache the university handlers work on. */
  class UniversityStore {
    var universities: map<Id, University>
    var pursuing: map<Id, Doc<PursuingFields>>
    var semesters: map<Id, Doc<SemesterFields>>
    var subjects: map<Id, Doc<SubjectFields>>
    var customerDetails: map<Id, Doc<CustomerDetailsFields>>
    var cache: map<string, CachedValue>

    /** Every cached university is the stored document under the same id. */
    ghost predicate CacheAgrees()
      reads this
    {
      forall id :: CacheKey(id) in cache ==> id in universities && cache[CacheKey(id)] == OneUniversity(universities[id])
    }

    constructor ()
      ensures universities == map[] && pursuing == map[] && semesters == map[]
      ensures subjects == map[] && customerDetails == map[] && cache == map[]
      ensures CacheAgrees()
    {
      universities, pursuing, semesters := map[], map[], map[];
      subjects, customerDetails, cache := map[], map[], map[];
    }

    /** createUniversity. `body` is the schema's parse of the request body,
        `logoPath` the uploaded file's path, `adminId` the id of req.admin,
        and `newId` the id the store gives the new document. */
    method CreateUniversity(body: Parsed<UniversityInput>, logoPath: Option<string>, adminId: Option<Id>, newId: Id)
      returns (r: Result<Reply<University>>)
      requires newId !in universities
      modifies this`universities
      ensures body.Invalid? ==> r == Err(HttpError(400, "Invalid data")) && universities == old(universities)
      ensures body.Valid? && adminId.None? ==> r == Err(HttpError(400, "Admin id is required")) && universities == old(universities)
      ensures body.Valid? && adminId.Some? ==>
        var created := Doc(UniversityFields(body.data.universityName, logoPath, adminId.value), false);
        && r == Ok(Reply(201, "University created", created))
        && universities == old(universities)[newId := created]
      ensures old(CacheAgrees()) ==> CacheAgrees()
    {
      if body.Invalid? {
        return Err(HttpError(400, "Invalid data"));
      }
      if adminId.None? {
        return Err(HttpError(400, "Admin id is required"));
      }
      var created := Doc(UniversityFields(body.data.universityName, logoPath, adminId.value), false);
      universities := universities[newId := created];
      r := Ok(Reply(201, "University created", created));
    }

    /** getAllUniversities: the handler answers only from the cache; on a
        miss it queries the store and returns without sending a reply
        (Ok(None)). */
    method GetAllUniversities(adminId: Option<Id>, customerId: Option<Id>)
      returns (r: Result<Option<Reply<CachedValue>>>)
      ensures adminId.None? && customerId.None? ==> r == Err(HttpError(400, "Admin or Customer id is required"))
      ensures (adminId.Some? || customerId.Some?) && LIST_KEY in cache ==> r == Ok(Some(Reply(200, "All universities", cache[LIST_KEY])))
      ensures (adminId.Some? || customerId.Some?) && LIST_KEY !in cache ==> r == Ok(None)
    {
      if adminId.None? && customerId.None? {
        return Err(HttpError(400, "Admin or Customer id is required"));
      }
      if LIST_KEY in cache {
        return Ok(Some(Reply(200, "All universities", cache[LIST_KEY])));
      }
      r := Ok(None);
    }

    /** getUniversityById. Both the admin and the customer id are read from
        req.admin, so the handler's own check depends on `adminId` alone;
        `customerId` (req.customer) is ignored. */
    method GetUniversityById(universityId: Id, adminId: Option<Id>, customerId: Option<Id>, isValidObjectId: Id -> bool)
      returns (r: Result<Reply<CachedValue>>)
      modifies this`cache
      ensures adminId.None? ==> r == Err(HttpError(400, "Admin or Customer id is required")) && cache == old(cache)
      ensures adminId.Some? && !isValidObjectId(universityId) ==> r == Err(HttpError(400, "Invalid University id")) && cache == old(cache)
      ensures adminId.Some? && isValidObjectId(universityId) && CacheKey(universityId) in old(cache) ==>
        r == Ok(Reply(200, "University fetched successfully", old(cache)[CacheKey(universityId)])) && cache == old(cache)
      ensures adminId.Some? && isValidObjectId(universityId) && CacheKey(universityId) !in old(cache) && universityId !in universities ==>
        r == Err(HttpError(404, "University not found")) && cache == old(cache)
      ensures adminId.Some? && isValidObjectId(universityId) && CacheKey(universityId) !in old(cache) && universityId in universities ==>
        var found := OneUniversity(universities[universityId]);
        r == Ok(Reply(200, "University fetched successfully", found)) && cache == old(cache)[CacheKey(universityId) := found]
      ensures old(CacheAgrees()) ==> CacheAgrees()
      ensures old(CacheAgrees()) && r.Ok? ==>
        universityId in universities && r.value.data == OneUniversity(universities[universityId])
    {
      var customerOrAdmin := adminId;
      if adminId.None? && customerOrAdmin.None? {
        return Err(HttpError(400, "Admin or Customer id is required"));
      }
      if !isValidObjectId(universityId) {
        return Err(HttpError(400, "Invalid University id"));
      }
      var key := CacheKey(universityId);
      if key in cache {
        return Ok(Reply(200, "University fetched successfully", cache[key]));
      }
      if universityId !in universities {
        return Err(HttpError(404, "University not found"));
      }
      var found := OneUniversity(universities[universityId]);
      cache := cache[key := found];
      forall id | CacheKey(id) in cache && old(CacheAgrees())
        ensures id in universities && cache[CacheKey(id)] == OneUniversity(universities[id])
      {
        CacheKeysDistinct(id, universityId);
      }
      r := Ok(Reply(200, "University fetched successfully", found));
    }

    /** The first guard of updateUniversity that fails, in the handler's
        order, or None when all pass. */
    function UpdateRejection(body: Parsed<UniversityInput>, universityId: Id, adminId: Option<Id>, isValidObjectId: Id -> bool): (e: Option<HttpError>)
      reads this
      ensures body.Invalid? ==> e == Some(HttpError(400, "Invalid data"))
      ensures body.Valid? && adminId.None? ==> e == Some(HttpError(401, "Unauthorized request"))
      ensures body.Valid? && adminId.Some? && !isValidObjectId(universityId) ==> e == Some(HttpError(400, "Invalid id"))
      ensures body.Valid? && adminId.Some? && isValidObjectId(universityId) && universityId !in universities ==>
        e == Some(HttpError(404, "University not found"))
      ensures body.Valid? && adminId.Some? && isValidObjectId(universityId) && universityId in universities
              && universities[universityId].isDeleted ==>
        e == Some(HttpError(400, "University is deleted"))
      ensures body.Valid? && adminId.Some? && isValidObjectId(universityId) && universityId in universities
              && !universities[universityId].isDeleted && universities[universityId].fields.adminId != adminId.value ==>
        e == Some(HttpError(401, "Unauthorized request"))
      ensures e.None? <==> body.Valid? && adminId.Some? && isValidObjectId(universityId) && universityId in universities
                           && !universities[universityId].isDeleted && universities[universityId].fields.adminId == adminId.value
      ensures e.Some? ==> e.value.HttpError? && e.value.status in {400, 401, 404}
    {
      if body.Invalid? then Some(HttpError(400, "Invalid data"))
      else if adminId.None? then Some(HttpError(401, "Unauthorized request"))
      else if !isValidObjectId(universityId) then Some(HttpError(400, "Invalid id"))
      else if universityId !in universities then Some(HttpError(404, "University not found"))
      else if universities[universityId].isDeleted then Some(HttpError(400, "University is deleted"))
      else if universities[universityId].fields.adminId != adminId.value then Some(HttpError(401, "Unauthorized request"))
      else None
    }

    /** updateUniversity: guards, then the name (and the logo when a new one
        was uploaded) change, and both cache keys are dropped. */
    method UpdateUniversity(body: Parsed<UniversityInput>, universityId: Id, adminId: Option<Id>, logoPath: Option<string>, isValidObjectId: Id -> bool)
      returns (r: Result<Reply<University>>)
      modifies this`universities, this`cache
      ensures var rejection := old(UpdateRejection(body, universityId, adminId, isValidObjectId));
        rejection.Some? ==> r == Err(rejection.value) && universities == old(universities) && cache == old(cache)
      ensures old(UpdateRejection(body, universityId, adminId, isValidObjectId)).None? ==>
        var before := old(universities)[universityId];
        var after := before.(fields := before.fields.(
                       universityName := body.data.universityName,
                       universityLogo := if logoPath.Some? then logoPath else before.fields.universityLogo));
        && r == Ok(Reply(200, "University updated", after))
        && universities == old(universities)[universityId := after]
        && cache == old(cache) - {CacheKey(universityId), LIST_KEY}
      ensures old(CacheAgrees()) ==> CacheAgrees()
    {
      var rejection := UpdateRejection(body, universityId, adminId, isValidObjectId);
      if rejection.Some? {
        return Err(rejection.value);
      }
      var university := universities[universityId];
      university := university.(fields := university.fields.(universityName := body.data.universityName));
      if logoPath.Some? {
        university := university.(fields := university.fields.(universityLogo := logoPath));
      }
      universities := universities[universityId := university];
      var universityCacheKey := CacheKey(universityId);
      if universityCacheKey in cache {
        cache := cache - {universityCacheKey};
      }
      if LIST_KEY in cache {
        cache := cache - {LIST_KEY};
      }
      r := Ok(Reply(200, "University updated", university));
    }

    /** The outer loop of deleteUniversity: every track of the university is
        marked deleted, and with it the semesters and subjects it reaches. */
    method SoftDeleteTracks(universityId: Id)
      modifies this`pursuing, this`semesters, this`subjects
      ensures var tracks := TracksOf(old(pursuing), universityId);
        var sems := SemestersReached(old(pursuing), old(semesters), tracks);
        && pursuing == SoftDeleted(old(pursuing), tracks)
        && semesters == SoftDeleted(old(semesters), sems)
        && subjects == SoftDeleted(old(subjects), SubjectsReached(old(semesters), old(subjects), sems))
    {
      ghost var P0, S0, Sub0 := pursuing, semesters, subjects;
      var currentPursuingList := TracksOf(pursuing, universityId);
      var remaining := currentPursuingList;
      ghost var done: set<Id> := {};
      while remaining != {}
        invariant remaining + done == currentPursuingList && remaining !! done
        invariant pursuing == SoftDeleted(P0, done)
        invariant semesters == SoftDeleted(S0, SemestersReached(P0, S0, done))
        invariant subjects == SoftDeleted(Sub0, SubjectsReached(S0, Sub0, SemestersReached(P0, S0, done)))
        decreases remaining
      {
        var p :| p in remaining;
        var currentPursuing := pursuing[p];
        SoftDeletedStep(P0, done, p);
        pursuing := pursuing[p := currentPursuing.(isDeleted := true)];

        ghost var reached := SemestersReached(P0, S0, done);
        var semesterList := SemestersOfTrack(semesters, currentPursuing.fields);
        assert semesterList == SemestersOfTrack(S0, P0[p].fields);
        ghost var S1, Sub1 := semesters, subjects;
        SoftDeleteSemesters(semesterList);
        SoftDeletedTwice(S0, reached, semesterList);
        SemestersReachedStep(P0, S0, done, p);
        SubjectsReachedFromFields(S1, S0, Sub1, Sub0, semesterList);
        SoftDeletedTwice(Sub0, SubjectsReached(S0, Sub0, reached), SubjectsReached(S0, Sub0, semesterList));
        SubjectsReachedUnion(S0, Sub0, reached, semesterList);
        remaining := remaining - {p};
        done := done + {p};
      }
      assert done == currentPursuingList;
    }

    /** The inner loop of deleteUniversity: each listed semester is marked
        deleted, then Subject.updateMany marks the subjects it lists. */
    method SoftDeleteSemesters(semesterList: set<Id>)
      requires semesterList <= semesters.Keys
      modifies this`semesters, this`subjects
      ensures semesters == SoftDeleted(old(semesters), semesterList)
      ensures subjects == SoftDeleted(old(subjects), SubjectsReached(old(semesters), old(subjects), semesterList))
    {
      ghost var S0, Sub0 := semesters, subjects;
      var semRemaining := semesterList;
      ghost var semDone: set<Id> := {};
      while semRemaining != {}
        invariant semRemaining + semDone == semesterList && semRemaining !! semDone
        invariant semesters == SoftDeleted(S0, semDone)
        invariant subjects == SoftDeleted(Sub0, SubjectsReached(S0, Sub0, semDone))
        decreases semRemaining
      {
        var s :| s in semRemaining;
        var semester := semesters[s];
        SoftDeletedStep(S0, semDone, s);
        semesters := semesters[s := semester.(isDeleted := true)];
        var subjectIds := SubjectsOfSemester(subjects, semester.fields);
        assert subjectIds == SubjectsOfSemester(Sub0, S0[s].fields);
        SoftDeletedTwice(Sub0, SubjectsReached(S0, Sub0, semDone), subjectIds);
        SubjectsReachedStep(S0, Sub0, semDone, s);
        subjects := SoftDeleted(subjects, subjectIds);
        semRemaining := semRemaining - {s};
        semDone := semDone + {s};
      }
    }

    /** The success path of deleteUniversity, after findOneAndUpdate has
        matched: the university, its tracks, their semesters and those
        semesters' subjects are soft-deleted, and both cache keys dropped. */
    method MarkUniversityDeleted(universityId: Id)
      requires universityId in universities
      modifies this`universities, this`pursuing, this`semesters, this`subjects, this`cache
      ensures var tracks := TracksOf(old(pursuing), universityId);
        var sems := SemestersReached(old(pursuing), old(semesters), tracks);
        && universities == SoftDeleted(old(universities), {universityId})
        && pursuing == SoftDeleted(old(pursuing), tracks)
        && semesters == SoftDeleted(old(semesters), sems)
        && subjects == SoftDeleted(old(subjects), SubjectsReached(old(semesters), old(subjects), sems))
        && cache == old(cache) - {CacheKey(universityId), LIST_KEY}
      ensures old(CacheAgrees()) ==> CacheAgrees()
    {
      SoftDeletedOne(universities, universityId);
      universities := universities[universityId := universities[universityId].(isDeleted := true)];

      SoftDeleteTracks(universityId);

      // CustomerDetails.updateMany(...) is neither awaited nor executed.

      var universityCacheKey := CacheKey(universityId);
      if universityCacheKey in cache {
        cache := cache - {universityCacheKey};
      }
      if LIST_KEY in cache {
        cache := cache - {LIST_KEY};
      }
      if old(CacheAgrees()) {
        forall id | CacheKey(id) in cache
          ensures id in universities && cache[CacheKey(id)] == OneUniversity(universities[id])
        {
          CacheKeysDistinct(id, universityId);
          assert universities[id] == old(universities)[id];
        }
      }
    }

    /** deleteUniversity: the university is soft-deleted only when the id,
        the caller's admin id and isDeleted=false all match; then every track
        of it, every stored semester they list and every stored subject those
        list are soft-deleted, and both cache keys are dropped. The
        CustomerDetails.updateMany query is built but never executed, so
        `customerDetails` is outside the frame. */
    method DeleteUniversity(universityId: Id, adminId: Option<Id>, isValidObjectId: Id -> bool)
      returns (r: Result<Reply<string>>)
      modifies this`universities, this`pursuing, this`semesters, this`subjects, this`cache
      ensures !isValidObjectId(universityId) ==> r == Err(HttpError(400, "Invalid id"))
      ensures isValidObjectId(universityId) && adminId.None? ==> r == Err(HttpError(401, "Unauthorized request"))
      ensures var deletable := isValidObjectId(universityId) && adminId.Some? && universityId in old(universities)
                               && old(universities)[universityId].fields.adminId == adminId.value
                               && !old(universities)[universityId].isDeleted;
        && (isValidObjectId(universityId) && adminId.Some? && !deletable ==> r == Err(HttpError(400, "Could not delete university")))
        && (!deletable ==> universities == old(universities) && pursuing == old(pursuing) && semesters == old(semesters)
                           && subjects == old(subjects) && cache == old(cache))
        && (r.Ok? <==> deletable)
      ensures r.Ok? ==>
        var tracks := TracksOf(old(pursuing), universityId);
        var sems := SemestersReached(old(pursuing), old(semesters), tracks);
        && r.value == Reply(200, "University deleted", LIST_KEY)
        && universities == SoftDeleted(old(universities), {universityId})
        && pursuing == SoftDeleted(old(pursuing), tracks)
        && semesters == SoftDeleted(old(semesters), sems)
        && subjects == SoftDeleted(old(subjects), SubjectsReached(old(semesters), old(subjects), sems))
        && cache == old(cache) - {CacheKey(universityId), LIST_KEY}
      ensures old(CacheAgrees()) ==> CacheAgrees()
    {
      if !isValidObjectId(universityId) {
        return Err(HttpError(400, "Invalid id"));
      }
      if adminId.None? {
        return Err(HttpError(401, "Unauthorized request"));
      }
      // University.findOneAndUpdate({ _id, adminId, isDeleted: false }, { isDeleted: true })
      if !(universityId in universities && universities[universityId].fields.adminId == adminId.value
           && !universities[universityId].isDeleted) {
        return Err(HttpError(400, "Could not delete university"));
      }
      MarkUniversityDeleted(universityId);
      r := Ok(Reply(200, "University deleted", LIST_KEY));
    }
  }

  /** A rename followed by a read of the same university returns the new
      name, whichever entries the cache held before. */
  method RenameThenRead(store: UniversityStore, universityId: Id, adminId: Id, newName: string, isValidObjectId: Id -> bool)
    returns (read: Result<Reply<CachedValue>>)
    requires isValidObjectId(universityId) && universityId in store.universities
    requires !store.universities[universityId].isDeleted && store.universities[universityId].fields.adminId == adminId
    modifies store
    ensures read.Ok? && read.value.data.OneUniversity? && read.value.data.university.fields.universityName == newName
  {
    var updated := store.UpdateUniversity(Valid(UniversityInput(newName)), universityId, Some(adminId), None, isValidObjectId);
    CacheKeysDistinct(universityId, universityId);
    read := store.GetUniversityById(universityId, Some(adminId), None, isValidObjectId);
  }

  /** A second delete of the same university fails and changes nothing. */
  method DeleteTwice(store: UniversityStore, universityId: Id, adminId: Id, isValidObjectId: Id -> bool)
    returns (first: Result<Reply<string>>, second: Result<Reply<string>>)
    modifies store
    ensures first.Ok? ==> second == Err(HttpError(400, "Could not delete university"))
  {
    first := store.DeleteUniversity(universityId, Some(adminId), isValidObjectId);
    second := store.DeleteUniversity(universityId, Some(adminId), isValidObjectId);
  }
}
