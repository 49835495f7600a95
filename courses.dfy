/** The course controller of the NestJS server: each route is a chain of
    guards followed by one call into the course service. A route either
    throws or yields the service call it makes, with its arguments. */
module CoursesController {
  import opened Common

  /** The user the CurrentUser decorator supplies. */
  datatype UserDocument = UserDocument(id: Id, role: string)

  datatype UploadedFile = UploadedFile(path: string)

  /** The multipart fields that passed the interceptor; a field that was not
      sent is None. Each field holds at most one file (maxCount: 1). */
  datatype Files = Files(video: Option<UploadedFile>, thumbnail: Option<UploadedFile>)

  /** What FileFieldsInterceptor leaves for the handler: no multipart body
      at all (req.files unset), a rejected upload (a second `video` or
      `thumbnail`, or a file under any other field name), or the fields. */
  datatype Upload = NotMultipart | UnexpectedField | Uploaded(files: Files)

  const UNEXPECTED_FIELD := HttpError(400, "Unexpected field")

  /** The validated CreateCourseDto, passed on untouched. */
  type CourseDto = map<string, string>

  /** A raw query-string value, forwarded untouched (None when absent). */
  type QueryValue = Option<string>

  /** The course-service call a route ends in. */
  datatype ServiceCall =
    | GetAllCourses(limit: QueryValue, skip: QueryValue)
    | SearchCourses(q: QueryValue, limit: QueryValue, skip: QueryValue)
    | GetCourseBySlug(slug: string)
    | CreateCourse(user: UserDocument, files: Files, dto: CourseDto)
    | ToggleCoursePublish(id: Id)
    | DeleteManyById(ids: seq<Id>)
    | DeleteById(id: Id)

  const ADMIN := "admin"
  /** USERS_MESSAGES.FORBIDDEN, invalidMongodbId and
      COURSES_MESSAGES.COURSE_ID_NOT_FOUND: constants defined outside this
      model, represented by their names. */
  const FORBIDDEN_MESSAGE := "USERS_MESSAGES.FORBIDDEN"
  const INVALID_ID_MESSAGE := "invalidMongodbId"
  const COURSE_ID_NOT_FOUND := "COURSES_MESSAGES.COURSE_ID_NOT_FOUND"

  const FORBIDDEN := HttpError(403, FORBIDDEN_MESSAGE)

  /** GET /courses: no role check; limit and skip reach the service unchanged. */
  function GetAllCoursesRoute(limit: QueryValue, skip: QueryValue): (r: Result<ServiceCall>)
    ensures r.Ok? && r.value.GetAllCourses? && r.value.limit == limit && r.value.skip == skip
  {
    Ok(GetAllCourses(limit, skip))
  }

  /** GET /courses/search: no role check; q, limit and skip reach the service unchanged. */
  function SearchCoursesRoute(q: QueryValue, limit: QueryValue, skip: QueryValue): (r: Result<ServiceCall>)
    ensures r.Ok? && r.value.SearchCourses? && r.value.q == q && r.value.limit == limit && r.value.skip == skip
  {
    Ok(SearchCourses(q, limit, skip))
  }

  /** GET /courses/:slug: no role check. */
  function GetCourseBySlugRoute(slug: string): (r: Result<ServiceCall>)
    ensures r.Ok? && r.value.GetCourseBySlug? && r.value.slug == slug
  {
    Ok(GetCourseBySlug(slug))
  }

  /** POST /courses. FileFieldsInterceptor runs first and rejects an
      unexpected file with 400; then the ValidationPipe checks the body.
      The route has no JwtGuard, so the user may be absent, and reading its
      role then raises a TypeError (500); so does reading `files.video` when
      the request was not multipart. */
  function CreateCourseRoute(upload: Upload, dto: Parsed<CourseDto>, user: Option<UserDocument>): (r: Result<ServiceCall>)
    ensures r.Ok? <==> upload.Uploaded? && dto.Valid? && user.Some? && user.value.role == ADMIN
                       && upload.files.video.Some? && upload.files.thumbnail.Some?
    ensures r.Ok? ==> r.value == CreateCourse(user.value, upload.files, dto.data)
    ensures upload.UnexpectedField? ==> r == Err(UNEXPECTED_FIELD)
    ensures !upload.UnexpectedField? && dto.Invalid? ==> r == Err(HttpError(400, dto.message))
    ensures !upload.UnexpectedField? && dto.Valid? && user.None? ==> r == Err(INTERNAL_ERROR)
    ensures !upload.UnexpectedField? && dto.Valid? && user.Some? && user.value.role != ADMIN ==> r == Err(FORBIDDEN)
    ensures upload.NotMultipart? && dto.Valid? && user.Some? && user.value.role == ADMIN ==> r == Err(INTERNAL_ERROR)
    ensures upload.Uploaded? && dto.Valid? && user.Some? && user.value.role == ADMIN
            && (upload.files.video.None? || upload.files.thumbnail.None?) ==>
      r == Err(HttpError(400, "Both video and thumbnail are required"))
  {
    if upload.UnexpectedField? then Err(UNEXPECTED_FIELD)
    else if dto.Invalid? then Err(HttpError(400, dto.message))
    else if user.None? then Err(INTERNAL_ERROR)
    else if user.value.role != ADMIN then Err(FORBIDDEN)
    else if upload.NotMultipart? then Err(INTERNAL_ERROR)
    else if upload.files.video.None? || upload.files.thumbnail.None? then Err(HttpError(400, "Both video and thumbnail are required"))
    else Ok(CreateCourse(user.value, upload.files, dto.data))
  }

  /** PATCH /courses/publish/:id: the role check precedes the id check. */
  function ToggleCoursePublishRoute(id: Id, user: UserDocument, isValidObjectId: Id -> bool): (r: Result<ServiceCall>)
    ensures user.role != ADMIN ==> r == Err(FORBIDDEN)
    ensures user.role == ADMIN && !isValidObjectId(id) ==> r == Err(HttpError(400, INVALID_ID_MESSAGE))
    ensures r.Ok? <==> user.role == ADMIN && isValidObjectId(id)
    ensures r.Ok? ==> r.value == ToggleCoursePublish(id)
  {
    if user.role != ADMIN then Err(FORBIDDEN)
    else if !isValidObjectId(id) then Err(HttpError(400, INVALID_ID_MESSAGE))
    else Ok(ToggleCoursePublish(id))
  }

  /** DELETE /courses/bulk. `ids` is the body's ids field; when it is absent,
      reading its length raises a TypeError. */
  function RemoveAllRoute(user: UserDocument, ids: Option<seq<Id>>): (r: Result<ServiceCall>)
    ensures user.role != ADMIN ==> r == Err(FORBIDDEN)
    ensures user.role == ADMIN && ids == Some([]) ==> r == Err(HttpError(400, COURSE_ID_NOT_FOUND))
    ensures r.Ok? <==> user.role == ADMIN && ids.Some? && ids.value != []
    ensures r.Ok? ==> r.value == DeleteManyById(ids.value)
  {
    if user.role != ADMIN then Err(FORBIDDEN)
    else if ids.None? then Err(INTERNAL_ERROR)
    else if |ids.value| == 0 then Err(HttpError(400, COURSE_ID_NOT_FOUND))
    else Ok(DeleteManyById(ids.value))
  }

  /** DELETE /courses/:id: the role check precedes the id check. */
  function RemoveRoute(id: Id, user: UserDocument, isValidObjectId: Id -> bool): (r: Result<ServiceCall>)
    ensures user.role != ADMIN ==> r == Err(FORBIDDEN)
    ensures user.role == ADMIN && !isValidObjectId(id) ==> r == Err(HttpError(400, INVALID_ID_MESSAGE))
    ensures r.Ok? <==> user.role == ADMIN && isValidObjectId(id)
    ensures r.Ok? ==> r.value == DeleteById(id)
  {
    if user.role != ADMIN then Err(FORBIDDEN)
    else if !isValidObjectId(id) then Err(HttpError(400, INVALID_ID_MESSAGE))
    else Ok(DeleteById(id))
  }

  /** No route that changes courses reaches the service for a user who is
      not an admin. */
  lemma NonAdminNeverMutates(user: UserDocument, id: Id, ids: Option<seq<Id>>, dto: Parsed<CourseDto>, upload: Upload, isValidObjectId: Id -> bool)
    requires user.role != ADMIN
    ensures CreateCourseRoute(upload, dto, Some(user)).Err?
    ensures ToggleCoursePublishRoute(id, user, isValidObjectId).Err?
    ensures RemoveAllRoute(user, ids).Err?
    ensures RemoveRoute(id, user, isValidObjectId).Err?
  {
  }
}
