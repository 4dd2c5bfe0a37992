/**
 * Client methods that create users, profiles, jobs and applications and
 * then edit and delete them. Each assertion follows from the handlers'
 * contracts alone.
 */
module Scenarios {
  import opened Wrappers
  import opened Tables
  import opened Store

  /** Three users created in a fresh store get keys 1, 2 and 3. */
  method ThreeUsers(row: UserRow) returns (s: RecordStore)
    ensures fresh(s)
    ensures s.Snapshot() == EmptyDb.(users := map[1 := row, 2 := row, 3 := row])
  {
    s := new RecordStore();
    var a := s.CreateUser(row);
    assert a == 1 && s.users.Keys == {1};
    var b := s.CreateUser(row);
    assert b == 2 && s.users.Keys == {1, 2};
    var c := s.CreateUser(row);
    assert c == 3;
  }

  /** After deleting user 2 of users 1, 2, 3, the next user gets key 4, not 2. */
  method KeyAfterDelete(row: UserRow) {
    var s := ThreeUsers(row);
    var r := s.DeleteUser(2);
    assert r == Ok && s.users.Keys == {1, 3};
    var d := s.CreateUser(row);
    assert d == 4;
  }

  /** After deleting user 3 of users 1, 2, 3, the next user gets key 3 again. */
  method KeyReusedAfterDeletingNewest(row: UserRow) {
    var s := ThreeUsers(row);
    var r := s.DeleteUser(3);
    assert r == Ok && s.users.Keys == {1, 2};
    var d := s.CreateUser(row);
    assert d == 3;
  }

  /** After a successful delete, editing or deleting the same key is a 404. */
  method DeleteThenNotFound(row: UserRow, caregiver: CaregiverRow) {
    var s := new RecordStore();
    var u := s.CreateUser(row);
    var r := s.CreateCaregiver(u, caregiver);
    r := s.DeleteCaregiver(u);
    assert r == Ok;
    r := s.EditCaregiver(u, caregiver);
    assert r == NotFound;
    r := s.DeleteCaregiver(u);
    assert r == NotFound;
  }

  /** A member (user 1) who has posted job 1 today. */
  method PostedJob(alice: UserRow, household: MemberRow, today: Date) returns (s: RecordStore)
    ensures fresh(s)
    ensures s.Snapshot() == EmptyDb.(users := map[1 := alice], members := map[1 := household],
                                     jobs := map[1 := JobRow(1, "elder_care", None, today)])
  {
    s := new RecordStore();
    var u := s.CreateUser(alice);
    assert u == 1;
    var r := s.CreateMember(u, household);
    assert r == Ok;
    var job;
    r, job := s.CreateJob(u, "elder_care", None, today);
    assert r == Ok && job == 1;
  }

  /** A caregiver (user 2) applies once to job 1; a second identical application is refused. */
  method Marketplace(alice: UserRow, bob: UserRow, household: MemberRow, today: Date) {
    var s := PostedJob(alice, household, today);
    var u := s.CreateUser(bob);
    assert u == 2;
    var r := s.CreateCaregiver(u, CaregiverRow(None, None, "elder_care", None));
    assert r == Ok;
    r := s.CreateCaregiver(u, CaregiverRow(None, None, "babysitter", None));
    assert r == AlreadyCaregiver;
    r := s.CreateJobApp(u, 1, today);
    assert r == Ok && s.jobApps == map[(2, 1) := JobAppRow(today)];
    r := s.CreateJobApp(u, 1, today);
    assert r == AppExists && s.jobApps == map[(2, 1) := JobAppRow(today)];
  }

  /** An address for a member that does not exist is refused and nothing is stored. */
  method AddressForMissingMember(row: AddressRow) {
    var s := new RecordStore();
    var r := s.CreateAddress(99, row);
    assert r == MemberMissing && s.addresses == map[];
  }

  /** Moving an application onto a pair that already exists is refused and both rows stay. */
  method MoveOntoExistingApplication(row: UserRow, first: Date, second: Date) {
    var s := new RecordStore();
    var m := s.CreateUser(row);
    var c := s.CreateUser(row);
    var r := s.CreateMember(m, MemberRow("", ""));
    r := s.CreateCaregiver(c, CaregiverRow(None, None, "elder_care", None));
    var j1, j2;
    r, j1 := s.CreateJob(m, "elder_care", None, first);
    r, j2 := s.CreateJob(m, "elder_care", None, first);
    r := s.CreateJobApp(c, j1, first);
    r := s.CreateJobApp(c, j2, second);
    var before := s.jobApps;
    r := s.EditJobApp(c, j1, c, j2);
    assert r == AppExists && s.jobApps == before;
    r := s.DeleteJobApp(c, j2);
    r := s.EditJobApp(c, j1, c, j2);
    assert r == Ok && (c, j1) !in s.jobApps && s.jobApps[(c, j2)].dateApplied == first;
  }

  /**
   * In the handler logic, deleting a user that still has a caregiver profile
   * succeeds and leaves that profile dangling (the ORM's own nullify-on-delete,
   * which makes such a delete fail in the running application, is not modelled).
   */
  method DeleteLeavesOrphan(row: UserRow) {
    var s := new RecordStore();
    var u := s.CreateUser(row);
    var r := s.CreateCaregiver(u, CaregiverRow(None, None, "elder_care", None));
    assert Consistent(s.Snapshot());
    r := s.DeleteUser(u);
    assert r == Ok && !Consistent(s.Snapshot());
  }
}
