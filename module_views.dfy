/**
 * The five Module views: which permission class each one uses, how the two
 * permission stages decide a request, and the create handler, whose
 * perform_create saves the module, queues the e-mail notification, sets the
 * `model_user` attribute for non-staff requesters and saves again.
 */
module ModuleViews {
  import opened Wrappers
  import opened Domain
  import ModulePermissions
  import Validators
  import ValidatorExamples
  import TextFields

  datatype View = ModuleCreate | ModuleList | ModuleRetrieve | ModuleUpdate | ModuleDestroy
  {
    /** The views whose handler loads one module and so runs the object check. */
    predicate IsObjectView() { this in {ModuleRetrieve, ModuleUpdate, ModuleDestroy} }

    /** The verbs the view's handler serves. */
    predicate Serves(m: HttpMethod) {
      match this
      case ModuleCreate => m == POST
      case ModuleList => m == GET
      case ModuleRetrieve => m == GET
      case ModuleUpdate => m == PUT || m == PATCH
      case ModuleDestroy => m == DELETE
    }
  }

  datatype PermissionClass = IsAuthenticated | IsAuthenticatedAndIsOwner

  /** The `permission_classes` of each view. */
  function PermissionClassOf(v: View): (pc: PermissionClass)
    ensures pc == IsAuthenticated <==> v == ModuleCreate
  {
    match v
    case ModuleCreate => IsAuthenticated
    case _ => IsAuthenticatedAndIsOwner
  }

  /** Stage one of a permission class. */
  function ClassHasPermission(pc: PermissionClass, p: Principal): (r: bool)
    ensures r <==> p.IsAuthenticated()
  {
    match pc
    case IsAuthenticated => p.IsAuthenticated()
    case IsAuthenticatedAndIsOwner => ModulePermissions.HasPermission(p)
  }

  /** Stage two of a permission class; IsAuthenticated keeps the framework's default of granting. */
  function ClassHasObjectPermission(pc: PermissionClass, p: Principal, m: HttpMethod, obj: Module): (r: bool)
    ensures pc == IsAuthenticated ==> r
    ensures pc == IsAuthenticatedAndIsOwner ==> r == ModulePermissions.HasObjectPermission(p, m, obj)
  {
    match pc
    case IsAuthenticated => true
    case IsAuthenticatedAndIsOwner => ModulePermissions.HasObjectPermission(p, m, obj)
  }

  /**
   * One request to view `v`: stage one of its class; then, for the object
   * views, the lookup of the addressed module and stage two against it.
   */
  function Authorize(v: View, p: Principal, m: HttpMethod, target: Option<Module>): (d: Decision)
    requires v.Serves(m)
    ensures d == NotAuthenticated <==> !p.IsAuthenticated()
    ensures !v.IsObjectView() ==> (d == Allow <==> p.IsAuthenticated())
    ensures v.IsObjectView() && target.Some? ==>
      (d == Allow <==> ModulePermissions.HasObjectPermission(p, m, target.value))
    ensures v.IsObjectView() && target.None? && p.IsAuthenticated() ==> d == NotFound
    ensures d == NotFound ==> v.IsObjectView() && target.None? && p.IsAuthenticated()
    ensures d == PermissionDenied ==> v.IsObjectView() && p.IsAuthenticated()
  {
    var pc := PermissionClassOf(v);
    if !ClassHasPermission(pc, p) then NotAuthenticated
    else if !v.IsObjectView() then Allow
    else if target.None? then NotFound
    else if !ClassHasObjectPermission(pc, p, m, target.value) then PermissionDenied
    else Allow
  }

  /** On the object views, only the owner gets through, except that a superuser may also delete. */
  lemma ObjectViewsNeedOwner(v: View, p: Principal, m: HttpMethod, obj: Module)
    requires v.IsObjectView() && v.Serves(m)
    ensures Authorize(v, p, m, Some(obj)) == Allow <==>
      SameUser(p, obj.moduleUser) || (v == ModuleDestroy && p.User? && p.isSuperuser)
  {
  }

  /** The owner and the second user of the module tests, and the first user's module. */
  const Owner: Account := User(1, "test@test.com", false, false)
  const Other: Account := User(2, "another@test.com", false, false)
  const OwnersModule: Module := Module(1, "математика", "работа с числами", Owner)

  /** The owner gets 200, 200 and 204 on retrieve, update and delete. */
  lemma OwnerTestOutcomes()
    ensures Authorize(ModuleRetrieve, Owner, GET, Some(OwnersModule)) == Allow
    ensures Authorize(ModuleUpdate, Owner, PATCH, Some(OwnersModule)) == Allow
    ensures Authorize(ModuleDestroy, Owner, DELETE, Some(OwnersModule)) == Allow
  {
  }

  /** Another authenticated user gets 403 on each of them. */
  lemma OtherUserTestOutcomes()
    ensures Authorize(ModuleRetrieve, Other, GET, Some(OwnersModule)) == PermissionDenied
    ensures Authorize(ModuleUpdate, Other, PATCH, Some(OwnersModule)) == PermissionDenied
    ensures Authorize(ModuleDestroy, Other, DELETE, Some(OwnersModule)) == PermissionDenied
  {
  }

  /** An anonymous request gets 401 on every view. */
  lemma AnonymousTestOutcomes(target: Option<Module>)
    ensures Authorize(ModuleCreate, Anonymous, POST, None) == NotAuthenticated
    ensures Authorize(ModuleList, Anonymous, GET, None) == NotAuthenticated
    ensures Authorize(ModuleRetrieve, Anonymous, GET, target) == NotAuthenticated
    ensures Authorize(ModuleUpdate, Anonymous, PATCH, target) == NotAuthenticated
    ensures Authorize(ModuleDestroy, Anonymous, DELETE, target) == NotAuthenticated
  {
  }

  /** The payload of ModuleCreateSerializer; `module_user` already resolved from its e-mail. */
  datatype ModuleData = ModuleData(title: string, description: string, moduleUser: Account)

  /** The serializer's attrs as the validator sees them; `module_user` by its e-mail slug. */
  function Attrs(data: ModuleData): (attrs: map<string, string>)
    ensures "title" in attrs && attrs["title"] == data.title
  {
    map["title" := data.title, "description" := data.description, "module_user" := data.moduleUser.email]
  }

  /** The title and description fields' outcomes on a payload. */
  function TitleClean(payload: ModuleData): Result<string, set<TextFields.FieldError>> {
    TextFields.Clean(payload.title, TextFields.TitleMaxLength)
  }

  function DescriptionClean(payload: ModuleData): Result<string, set<TextFields.FieldError>> {
    TextFields.Clean(payload.description, TextFields.DescriptionMaxLength)
  }

  /** The errors a field reports: none when it accepted its value. */
  function ErrorsOf(r: Result<string, set<TextFields.FieldError>>): set<TextFields.FieldError> {
    if r.Ok? then {} else r.error
  }

  /** One `send_email_creation.delay(email, title)` handed to the task queue. */
  datatype Notification = Notification(email: string, title: string)

  /** The response of one create request. */
  datatype CreateResponse =
    | Created(created: Module)          // 201
    | Unauthorized                     // 401
    | InvalidFields(title: set<TextFields.FieldError>, description: set<TextFields.FieldError>)  // 400, from the fields
    | BadRequest(errors: Validators.ErrorMap)  // 400, from TitleValidation

  /** An in-memory Module instance; only `id`, `title`, `description` and `moduleUser` are columns. */
  class ModuleInstance {
    var id: Option<nat>
    var title: string
    var description: string
    var moduleUser: Account
    /** The attribute `model_user` that perform_create assigns; not a column, so never saved. */
    var modelUser: Option<Account>

    /** `Module(**validated_data)`: an unsaved instance. */
    constructor (data: ModuleData)
      ensures id == None && modelUser == None
      ensures title == data.title && description == data.description && moduleUser == data.moduleUser
    {
      id := None;
      title, description, moduleUser := data.title, data.description, data.moduleUser;
      modelUser := None;
    }

    /** The row that saving this instance writes. */
    function Row(): (r: Module)
      reads this
      requires id.Some?
      ensures r.id == id.value && r.title == title && r.description == description && r.moduleUser == moduleUser
    {
      Module(id.value, title, description, moduleUser)
    }
  }

  /** The Module table and the notification queue. */
  class ModuleStore {
    var rows: map<nat, Module>
    var nextId: nat
    var outbox: seq<Notification>

    /** Every row sits under its own primary key, and keys are below the next one to assign. */
    ghost predicate Valid()
      reads this
    {
      forall id :: id in rows ==> id < nextId && rows[id].id == id
    }

    constructor ()
      ensures Valid() && rows == map[] && outbox == []
    {
      rows, nextId, outbox := map[], 1, [];
    }

    /** `Module.objects.count()`. */
    function Count(): nat
      reads this
    {
      |rows|
    }

    /**
     * `instance.save()`: an unsaved instance is inserted under a new key; a
     * saved one overwrites its row with its column values.
     */
    method Save(inst: ModuleInstance)
      requires Valid()
      requires inst.id.Some? ==> inst.id.value in rows
      modifies this, inst`id
      ensures Valid()
      ensures inst.id == if old(inst.id).None? then Some(old(nextId)) else old(inst.id)
      ensures nextId == if old(inst.id).None? then old(nextId) + 1 else old(nextId)
      ensures rows == old(rows)[inst.id.value := inst.Row()]
      ensures outbox == old(outbox)
    {
      if inst.id.None? {
        inst.id := Some(nextId);
        nextId := nextId + 1;
      }
      rows := rows[inst.id.value := inst.Row()];
    }

    /** `serializer.save()`: build the instance from the validated data and insert it. */
    method SaveNew(data: ModuleData) returns (inst: ModuleInstance)
      requires Valid()
      modifies this
      ensures Valid() && fresh(inst)
      ensures inst.id == Some(old(nextId)) && nextId == old(nextId) + 1
      ensures inst.title == data.title && inst.description == data.description
      ensures inst.moduleUser == data.moduleUser && inst.modelUser == None
      ensures rows == old(rows)[old(nextId) := Module(old(nextId), data.title, data.description, data.moduleUser)]
      ensures outbox == old(outbox)
    {
      inst := new ModuleInstance(data);
      Save(inst);
    }

    /**
     * ModuleCreateAPIView.perform_create, for the authenticated `user`: save,
     * queue the notification, set `model_user` unless `user` is staff, save again.
     * The stored owner stays the payload's `module_user`.
     */
    method PerformCreate(user: Account, data: ModuleData) returns (inst: ModuleInstance)
      requires Valid()
      modifies this
      ensures Valid() && fresh(inst)
      ensures inst.id == Some(old(nextId)) && nextId == old(nextId) + 1
      ensures rows == old(rows)[old(nextId) := Module(old(nextId), data.title, data.description, data.moduleUser)]
      ensures |rows| == |old(rows)| + 1
      ensures outbox == old(outbox) + [Notification(user.email, data.title)]
      ensures inst.modelUser == if user.isStaff then None else Some(user)
      ensures inst.title == data.title && inst.description == data.description
      ensures inst.moduleUser == data.moduleUser
    {
      inst := SaveNew(data);
      var title := inst.title;
      outbox := outbox + [Notification(user.email, title)];
      if !user.isStaff {
        inst.modelUser := Some(user);
      }
      Save(inst);
      assert old(nextId) !in old(rows);
    }

    /**
     * One POST to the create view: stage one of IsAuthenticated, then the
     * fields' own checks, whose errors are reported together, then the
     * serializer's TitleValidation on the stripped values, then
     * perform_create with them.
     */
    method Create(p: Principal, payload: ModuleData) returns (resp: CreateResponse)
      requires Valid()
      modifies this
      ensures Valid()
      ensures resp.Unauthorized? <==> !p.IsAuthenticated()
      ensures resp.InvalidFields? <==>
        p.IsAuthenticated() && (TitleClean(payload).Err? || DescriptionClean(payload).Err?)
      ensures resp.InvalidFields? ==>
        && resp.title == ErrorsOf(TitleClean(payload))
        && resp.description == ErrorsOf(DescriptionClean(payload))
      ensures resp.BadRequest? <==>
        p.IsAuthenticated() && TitleClean(payload).Ok? && DescriptionClean(payload).Ok?
        && Validators.RegexMatches(TextFields.Strip(payload.title))
      ensures resp.BadRequest? ==> resp.errors == Validators.BannedWordsError
      ensures !resp.Created? ==> rows == old(rows) && nextId == old(nextId) && outbox == old(outbox)
      ensures resp.Created? ==>
        var title := TextFields.Strip(payload.title);
        && resp.created == Module(old(nextId), title, TextFields.Strip(payload.description), payload.moduleUser)
        && rows == old(rows)[old(nextId) := resp.created]
        && |rows| == |old(rows)| + 1
        && nextId == old(nextId) + 1
        && outbox == old(outbox) + [Notification(p.email, title)]
    {
      if Authorize(ModuleCreate, p, POST, None) != Allow {
        return Unauthorized;
      }
      var title, description := TitleClean(payload), DescriptionClean(payload);
      if title.Err? || description.Err? {
        return InvalidFields(ErrorsOf(title), ErrorsOf(description));
      }
      var data := payload.(title := title.value, description := description.value);
      var errors := Validators.TitleValidation("title").Call(Attrs(data));
      if errors.Some? {
        return BadRequest(errors.value);
      }
      var inst := PerformCreate(p, data);
      resp := Created(inst.Row());
    }

    /**
     * The list view: stage one only, then every row, whoever owns it.
     */
    function List(p: Principal): (r: Option<map<nat, Module>>)
      reads this
      ensures r.Some? <==> p.IsAuthenticated()
      ensures r.Some? ==> r.value == rows
    {
      if Authorize(ModuleList, p, GET, None) == Allow then Some(rows) else None
    }
  }

  /** The fixture of the module tests: the two users' modules, and an empty queue. */
  method Fixture() returns (store: ModuleStore)
    ensures fresh(store) && store.Valid()
    ensures store.Count() == 2 && store.outbox == []
  {
    store := new ModuleStore();
    var first := store.SaveNew(ModuleData("математика", "работа с числами", Owner));
    var second := store.SaveNew(ModuleData("русский язык", "работа с буквами", Other));
  }

  /** An anonymous create gets 401; the count stays 2 and nothing is queued. */
  method TestCreateWithoutAuthentication() returns (resp: CreateResponse, before: nat, after: nat, sent: seq<Notification>)
    ensures resp == Unauthorized
    ensures before == 2 && after == 2 && sent == []
  {
    var store := Fixture();
    before := store.Count();
    resp := store.Create(Anonymous, ModuleData("Тестовое название", "тестовое описание", Owner));
    after, sent := store.Count(), store.outbox;
  }

  /** The owner's create titled "казино" gets 400 with the banned-words message; the count stays 2. */
  method TestCreateWithIncorrectTitle() returns (resp: CreateResponse, before: nat, after: nat, sent: seq<Notification>)
    ensures resp == BadRequest(map["banned_words" := "Нельзя публиковать запрещенные материалы"])
    ensures before == 2 && after == 2 && sent == []
  {
    var store := Fixture();
    before := store.Count();
    var payload := ModuleData("казино", "тестовое описание", Owner);
    TextFields.BannedTitlePayloadAccepted();
    ValidatorExamples.TestTitleKazinoRejected();
    resp := store.Create(Owner, payload);
    after, sent := store.Count(), store.outbox;
  }

  /**
   * The owner's create titled "Data science" gets 201; the count goes from 2
   * to 3 and one e-mail is queued, to the requester.
   */
  method TestCreateCorrectly() returns (resp: CreateResponse, before: nat, after: nat, sent: seq<Notification>)
    ensures resp.Created? && resp.created.title == "Data science" && resp.created.moduleUser == Owner
    ensures before == 2 && after == 3
    ensures sent == [Notification("test@test.com", "Data science")]
  {
    var store := Fixture();
    before := store.Count();
    var payload := ModuleData("Data science", "тестовое описание", Owner);
    TextFields.CorrectPayloadAccepted();
    ValidatorExamples.TestTitleDataScienceAccepted();
    resp := store.Create(Owner, payload);
    after, sent := store.Count(), store.outbox;
  }
}
