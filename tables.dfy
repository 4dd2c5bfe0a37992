/**
 * The seven tables of the caregiving marketplace: one row type per table,
 * the outcome of a handler, a snapshot of the whole store, and the
 * referential-integrity predicate that the foreign keys of the schema describe.
 */
module Tables {
  import opened Wrappers

  /** A calendar date, a time of day and a fixed-point decimal: opaque values supplied by callers. */
  type Date(==)
  type Time(==)
  type Decimal(==)

  /** A row of table USER; its key `user_id` is the map key. */
  datatype UserRow = UserRow(
    email: string,
    givenName: string,
    surname: string,
    city: string,
    phoneNumber: Option<string>,
    profileDescription: Option<string>,
    password: string)

  /** A row of table caregiver; its key `caregiver_user_id` is a `user_id`. */
  datatype CaregiverRow = CaregiverRow(
    photo: Option<string>,
    gender: Option<string>,
    caregivingType: string,
    hourlyRate: Option<Decimal>)

  /** A row of table member; its key `member_user_id` is a `user_id`. */
  datatype MemberRow = MemberRow(houseRules: string, dependentDescription: string)

  /** A row of table address; its key `member_user_id` is a member's key. */
  datatype AddressRow = AddressRow(houseNumber: string, street: string, town: string)

  /** A row of table job; its key `job_id` is the map key. */
  datatype JobRow = JobRow(
    memberUserId: int,
    requiredCaregivingType: string,
    otherRequirements: Option<string>,
    datePosted: Date)

  /** A row of table job_application; its key is the pair (caregiver_user_id, job_id). */
  datatype JobAppRow = JobAppRow(dateApplied: Date)

  /** A row of table appointment; its key `appointment_id` is the map key. */
  datatype AppointmentRow = AppointmentRow(
    caregiverUserId: int,
    memberUserId: int,
    appointmentDate: Date,
    appointmentTime: Time,
    workHours: int,
    status: string)

  /** What a handler reports: success, one of its error messages, or a 404. */
  datatype Outcome =
    | Ok
    | UserMissing        // "User does not exist"
    | AlreadyCaregiver   // "This user is already a caregiver"
    | AlreadyMember      // "This user is already a member"
    | MemberMissing      // "Member does not exist"
    | AddressExists      // "This member already has an address"
    | CaregiverMissing   // "Caregiver does not exist"
    | JobMissing         // "Job does not exist"
    | AppExists          // "This job application already exists"
    | NotFound           // get_or_404 found no row

  /** The contents of all seven tables at one moment. */
  datatype Db = Db(
    users: map<int, UserRow>,
    caregivers: map<int, CaregiverRow>,
    members: map<int, MemberRow>,
    addresses: map<int, AddressRow>,
    jobs: map<int, JobRow>,
    jobApps: map<(int, int), JobAppRow>,
    appointments: map<int, AppointmentRow>)

  const EmptyDb: Db := Db(map[], map[], map[], map[], map[], map[], map[])

  /**
   * Every foreign key of the schema resolves: caregivers and members are users,
   * addresses belong to members, jobs to members, applications to a caregiver
   * and a job, appointments to a caregiver and a member.
   */
  predicate Consistent(db: Db) {
    && db.caregivers.Keys <= db.users.Keys
    && db.members.Keys <= db.users.Keys
    && db.addresses.Keys <= db.members.Keys
    && (forall j :: j in db.jobs ==> db.jobs[j].memberUserId in db.members)
    && (forall p :: p in db.jobApps ==> p.0 in db.caregivers && p.1 in db.jobs)
    && (forall a :: a in db.appointments ==>
          db.appointments[a].caregiverUserId in db.caregivers &&
          db.appointments[a].memberUserId in db.members)
  }

  /** No caregiver or member profile refers to user `id`. */
  predicate UserUnreferenced(db: Db, id: int) {
    id !in db.caregivers && id !in db.members
  }

  /** No job application or appointment refers to caregiver `id`. */
  predicate CaregiverUnreferenced(db: Db, id: int) {
    && (forall p :: p in db.jobApps ==> p.0 != id)
    && (forall a :: a in db.appointments ==> db.appointments[a].caregiverUserId != id)
  }

  /** No address, job or appointment refers to member `id`. */
  predicate MemberUnreferenced(db: Db, id: int) {
    && id !in db.addresses
    && (forall j :: j in db.jobs ==> db.jobs[j].memberUserId != id)
    && (forall a :: a in db.appointments ==> db.appointments[a].memberUserId != id)
  }

  /** No job application refers to job `id`. */
  predicate JobUnreferenced(db: Db, id: int) {
    forall p :: p in db.jobApps ==> p.1 != id
  }

  /**
   * Moving the value at key `a` to key `b`, where `b` is `a` or a free key,
   * leaves the number of entries unchanged.
   */
  lemma MoveKeepsSize<K, V>(m: map<K, V>, a: K, b: K)
    requires a in m && (b == a || b !in m)
    ensures |(m - {a})[b := m[a]]| == |m|
  {
  }

  /**
   * The delete handlers do not look for child rows, so in the handler logic
   * removing a parent row can leave a dangling foreign key: here for each of
   * the four parent tables. (The ORM's nullify-on-delete, which aborts such a
   * delete in the running application, is not modelled.)
   */
  lemma DeletesCanOrphan(today: Date)
    ensures exists db: Db, id: int ::
              Consistent(db) && id in db.users && !Consistent(db.(users := db.users - {id}))
    ensures exists db: Db, id: int ::
              Consistent(db) && id in db.caregivers && !Consistent(db.(caregivers := db.caregivers - {id}))
    ensures exists db: Db, id: int ::
              Consistent(db) && id in db.members && !Consistent(db.(members := db.members - {id}))
    ensures exists db: Db, id: int ::
              Consistent(db) && id in db.jobs && !Consistent(db.(jobs := db.jobs - {id}))
  {
    var user := UserRow("a@x.com", "A", "B", "C", None, None, "pw");
    var caregiver := CaregiverRow(None, None, "elder_care", None);
    var member := MemberRow("none", "none");
    var job := JobRow(1, "elder_care", None, today);
    var withProfiles := EmptyDb.(users := map[1 := user], caregivers := map[1 := caregiver], members := map[1 := member]);
    assert Consistent(withProfiles);
    assert !Consistent(withProfiles.(users := withProfiles.users - {1}));
    var withApp := withProfiles.(jobs := map[1 := job], jobApps := map[(1, 1) := JobAppRow(today)]);
    assert Consistent(withApp);
    assert (1, 1) in withApp.jobApps;
    assert !Consistent(withApp.(caregivers := withApp.caregivers - {1}));
    assert !Consistent(withApp.(members := withApp.members - {1}));
    assert !Consistent(withApp.(jobs := withApp.jobs - {1}));
  }
}
