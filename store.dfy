/**
 * The record store behind the web handlers: one map per table, and one
 * method per create, edit and delete handler. Every handler runs its
 * checks in the order the handler does and returns at the first failing
 * one, before it changes anything; on success it touches exactly one table.
 */
module Store {
  import opened Wrappers
  import opened Keys
  import opened Tables

  class RecordStore {
    var users: map<int, UserRow>
    var caregivers: map<int, CaregiverRow>
    var members: map<int, MemberRow>
    var addresses: map<int, AddressRow>
    var jobs: map<int, JobRow>
    var jobApps: map<(int, int), JobAppRow>
    var appointments: map<int, AppointmentRow>

    /** The contents of all seven tables. */
    function Snapshot(): Db
      reads this
    {
      Db(users, caregivers, members, addresses, jobs, jobApps, appointments)
    }

    /** A store with seven empty tables. */
    constructor ()
      ensures Snapshot() == EmptyDb
    {
      users, caregivers, members, addresses := map[], map[], map[], map[];
      jobs, jobApps, appointments := map[], map[], map[];
    }

    // ----- User -----

    /** create_user: no checks; the new row gets the next free surrogate key. */
    method CreateUser(row: UserRow) returns (id: int)
      modifies this
      ensures id == NextKey(old(users).Keys)
      ensures Snapshot() == old(Snapshot()).(users := old(users)[id := row])
      ensures |users| == |old(users)| + 1
      ensures Consistent(old(Snapshot())) ==> Consistent(Snapshot())
    {
      id := NextKey(users.Keys);
      users := users[id := row];
    }

    /** edit_user: a 404 for an absent key, otherwise every editable field is rewritten. */
    method EditUser(id: int, row: UserRow) returns (r: Outcome)
      modifies this
      ensures r == (if id in old(users) then Ok else NotFound)
      ensures r != Ok ==> Snapshot() == old(Snapshot())
      ensures r == Ok ==> Snapshot() == old(Snapshot()).(users := old(users)[id := row])
      ensures Consistent(old(Snapshot())) ==> Consistent(Snapshot())
    {
      if id !in users {
        return NotFound;
      }
      users := users[id := row];
      r := Ok;
    }

    /** delete_user: a 404 for an absent key, otherwise the row goes; profiles are not looked at. */
    method DeleteUser(id: int) returns (r: Outcome)
      modifies this
      ensures r == (if id in old(users) then Ok else NotFound)
      ensures r != Ok ==> Snapshot() == old(Snapshot())
      ensures r == Ok ==> Snapshot() == old(Snapshot()).(users := old(users) - {id})
      ensures r == Ok && Consistent(old(Snapshot())) ==>
                (Consistent(Snapshot()) <==> UserUnreferenced(old(Snapshot()), id))
    {
      if id !in users {
        return NotFound;
      }
      users := users - {id};
      r := Ok;
    }

    // ----- Caregiver -----

    /** create_caregiver: the user must exist, then must not be a caregiver yet. */
    method CreateCaregiver(id: int, row: CaregiverRow) returns (r: Outcome)
      modifies this
      ensures r == (if id !in old(users) then UserMissing
                    else if id in old(caregivers) then AlreadyCaregiver
                    else Ok)
      ensures r != Ok ==> Snapshot() == old(Snapshot())
      ensures r == Ok ==> Snapshot() == old(Snapshot()).(caregivers := old(caregivers)[id := row])
      ensures r == Ok ==> |caregivers| == |old(caregivers)| + 1
      ensures Consistent(old(Snapshot())) ==> Consistent(Snapshot())
    {
      if id !in users {
        return UserMissing;
      }
      if id in caregivers {
        return AlreadyCaregiver;
      }
      caregivers := caregivers[id := row];
      r := Ok;
    }

    /** edit_caregiver: a 404 for an absent key, otherwise the profile fields are rewritten; no foreign-key check. */
    method EditCaregiver(id: int, row: CaregiverRow) returns (r: Outcome)
      modifies this
      ensures r == (if id in old(caregivers) then Ok else NotFound)
      ensures r != Ok ==> Snapshot() == old(Snapshot())
      ensures r == Ok ==> Snapshot() == old(Snapshot()).(caregivers := old(caregivers)[id := row])
      ensures Consistent(old(Snapshot())) ==> Consistent(Snapshot())
    {
      if id !in caregivers {
        return NotFound;
      }
      caregivers := caregivers[id := row];
      r := Ok;
    }

    /** delete_caregiver: a 404 for an absent key, otherwise the row goes; applications and appointments are not looked at. */
    method DeleteCaregiver(id: int) returns (r: Outcome)
      modifies this
      ensures r == (if id in old(caregivers) then Ok else NotFound)
      ensures r != Ok ==> Snapshot() == old(Snapshot())
      ensures r == Ok ==> Snapshot() == old(Snapshot()).(caregivers := old(caregivers) - {id})
      ensures r == Ok && Consistent(old(Snapshot())) ==>
                (Consistent(Snapshot()) <==> CaregiverUnreferenced(old(Snapshot()), id))
    {
      if id !in caregivers {
        return NotFound;
      }
      caregivers := caregivers - {id};
      r := Ok;
    }

    // ----- Member -----

    /** create_member: the user must exist, then must not be a member yet. */
    method CreateMember(id: int, row: MemberRow) returns (r: Outcome)
      modifies this
      ensures r == (if id !in old(users) then UserMissing
                    else if id in old(members) then AlreadyMember
                    else Ok)
      ensures r != Ok ==> Snapshot() == old(Snapshot())
      ensures r == Ok ==> Snapshot() == old(Snapshot()).(members := old(members)[id := row])
      ensures r == Ok ==> |members| == |old(members)| + 1
      ensures Consistent(old(Snapshot())) ==> Consistent(Snapshot())
    {
      if id !in users {
        return UserMissing;
      }
      if id in members {
        return AlreadyMember;
      }
      members := members[id := row];
      r := Ok;
    }

    /** edit_member: a 404 for an absent key, otherwise the profile fields are rewritten; no foreign-key check. */
    method EditMember(id: int, row: MemberRow) returns (r: Outcome)
      modifies this
      ensures r == (if id in old(members) then Ok else NotFound)
      ensures r != Ok ==> Snapshot() == old(Snapshot())
      ensures r == Ok ==> Snapshot() == old(Snapshot()).(members := old(members)[id := row])
      ensures Consistent(old(Snapshot())) ==> Consistent(Snapshot())
    {
      if id !in members {
        return NotFound;
      }
      members := members[id := row];
      r := Ok;
    }

    /** delete_member: a 404 for an absent key, otherwise the row goes; its address, jobs and appointments are not looked at. */
    method DeleteMember(id: int) returns (r: Outcome)
      modifies this
      ensures r == (if id in old(members) then Ok else NotFound)
      ensures r != Ok ==> Snapshot() == old(Snapshot())
      ensures r == Ok ==> Snapshot() == old(Snapshot()).(members := old(members) - {id})
      ensures r == Ok && Consistent(old(Snapshot())) ==>
                (Consistent(Snapshot()) <==> MemberUnreferenced(old(Snapshot()), id))
    {
      if id !in members {
        return NotFound;
      }
      members := members - {id};
      r := Ok;
    }

    // ----- Address -----

    /** create_address: the member must exist, then must not have an address yet. */
    method CreateAddress(id: int, row: AddressRow) returns (r: Outcome)
      modifies this
      ensures r == (if id !in old(members) then MemberMissing
                    else if id in old(addresses) then AddressExists
                    else Ok)
      ensures r != Ok ==> Snapshot() == old(Snapshot())
      ensures r == Ok ==> Snapshot() == old(Snapshot()).(addresses := old(addresses)[id := row])
      ensures r == Ok ==> |addresses| == |old(addresses)| + 1
      ensures Consistent(old(Snapshot())) ==> Consistent(Snapshot())
    {
      if id !in members {
        return MemberMissing;
      }
      if id in addresses {
        return AddressExists;
      }
      addresses := addresses[id := row];
      r := Ok;
    }

    /** edit_address: a 404 for an absent key, otherwise the address fields are rewritten; no foreign-key check. */
    method EditAddress(id: int, row: AddressRow) returns (r: Outcome)
      modifies this
      ensures r == (if id in old(addresses) then Ok else NotFound)
      ensures r != Ok ==> Snapshot() == old(Snapshot())
      ensures r == Ok ==> Snapshot() == old(Snapshot()).(addresses := old(addresses)[id := row])
      ensures Consistent(old(Snapshot())) ==> Consistent(Snapshot())
    {
      if id !in addresses {
        return NotFound;
      }
      addresses := addresses[id := row];
      r := Ok;
    }

    /** delete_address: a 404 for an absent key, otherwise the row goes. */
    method DeleteAddress(id: int) returns (r: Outcome)
      modifies this
      ensures r == (if id in old(addresses) then Ok else NotFound)
      ensures r != Ok ==> Snapshot() == old(Snapshot())
      ensures r == Ok ==> Snapshot() == old(Snapshot()).(addresses := old(addresses) - {id})
      ensures Consistent(old(Snapshot())) ==> Consistent(Snapshot())
    {
      if id !in addresses {
        return NotFound;
      }
      addresses := addresses - {id};
      r := Ok;
    }

    // ----- Job -----

    /**
     * create_job: the key is computed first, then the member is checked; the
     * new job is posted `today`. The key is returned even when the check fails.
     */
    method CreateJob(memberUserId: int, requiredCaregivingType: string, otherRequirements: Option<string>, today: Date)
      returns (r: Outcome, id: int)
      modifies this
      ensures id == NextKey(old(jobs).Keys)
      ensures r == (if memberUserId in old(members) then Ok else MemberMissing)
      ensures r != Ok ==> Snapshot() == old(Snapshot())
      ensures r == Ok ==> Snapshot() == old(Snapshot()).(jobs :=
                old(jobs)[id := JobRow(memberUserId, requiredCaregivingType, otherRequirements, today)])
      ensures r == Ok ==> |jobs| == |old(jobs)| + 1
      ensures Consistent(old(Snapshot())) ==> Consistent(Snapshot())
    {
      id := NextKey(jobs.Keys);
      if memberUserId !in members {
        return MemberMissing, id;
      }
      jobs := jobs[id := JobRow(memberUserId, requiredCaregivingType, otherRequirements, today)];
      r := Ok;
    }

    /** edit_job: a 404 for an absent key, then the member check; `date_posted` is kept. */
    method EditJob(id: int, memberUserId: int, requiredCaregivingType: string, otherRequirements: Option<string>)
      returns (r: Outcome)
      modifies this
      ensures r == (if id !in old(jobs) then NotFound
                    else if memberUserId !in old(members) then MemberMissing
                    else Ok)
      ensures r != Ok ==> Snapshot() == old(Snapshot())
      ensures r == Ok ==> Snapshot() == old(Snapshot()).(jobs :=
                old(jobs)[id := JobRow(memberUserId, requiredCaregivingType, otherRequirements, old(jobs)[id].datePosted)])
      ensures Consistent(old(Snapshot())) ==> Consistent(Snapshot())
    {
      if id !in jobs {
        return NotFound;
      }
      if memberUserId !in members {
        return MemberMissing;
      }
      var job := jobs[id];
      jobs := jobs[id := job.(memberUserId := memberUserId,
                              requiredCaregivingType := requiredCaregivingType,
                              otherRequirements := otherRequirements)];
      r := Ok;
    }

    /** delete_job: a 404 for an absent key, otherwise the row goes; its applications are not looked at. */
    method DeleteJob(id: int) returns (r: Outcome)
      modifies this
      ensures r == (if id in old(jobs) then Ok else NotFound)
      ensures r != Ok ==> Snapshot() == old(Snapshot())
      ensures r == Ok ==> Snapshot() == old(Snapshot()).(jobs := old(jobs) - {id})
      ensures r == Ok && Consistent(old(Snapshot())) ==>
                (Consistent(Snapshot()) <==> JobUnreferenced(old(Snapshot()), id))
    {
      if id !in jobs {
        return NotFound;
      }
      jobs := jobs - {id};
      r := Ok;
    }

    // ----- JobApplication -----

    /** create_job_application: caregiver, then job, then the pair must be new; applied `today`. */
    method CreateJobApp(caregiverUserId: int, jobId: int, today: Date) returns (r: Outcome)
      modifies this
      ensures r == (if caregiverUserId !in old(caregivers) then CaregiverMissing
                    else if jobId !in old(jobs) then JobMissing
                    else if (caregiverUserId, jobId) in old(jobApps) then AppExists
                    else Ok)
      ensures r != Ok ==> Snapshot() == old(Snapshot())
      ensures r == Ok ==> Snapshot() == old(Snapshot()).(jobApps :=
                old(jobApps)[(caregiverUserId, jobId) := JobAppRow(today)])
      ensures r == Ok ==> |jobApps| == |old(jobApps)| + 1
      ensures Consistent(old(Snapshot())) ==> Consistent(Snapshot())
    {
      if caregiverUserId !in caregivers {
        return CaregiverMissing;
      }
      if jobId !in jobs {
        return JobMissing;
      }
      if (caregiverUserId, jobId) in jobApps {
        return AppExists;
      }
      jobApps := jobApps[(caregiverUserId, jobId) := JobAppRow(today)];
      r := Ok;
    }

    /**
     * edit_job_application: a 404 for an absent pair, then the caregiver and
     * job checks, then a changed pair must be new. The row is then deleted and
     * re-inserted under the new pair with its original `date_applied`.
     */
    method EditJobApp(caregiverUserId: int, jobId: int, newCaregiverUserId: int, newJobId: int)
      returns (r: Outcome)
      modifies this
      ensures r == (if (caregiverUserId, jobId) !in old(jobApps) then NotFound
                    else if newCaregiverUserId !in old(caregivers) then CaregiverMissing
                    else if newJobId !in old(jobs) then JobMissing
                    else if (newCaregiverUserId, newJobId) != (caregiverUserId, jobId) &&
                            (newCaregiverUserId, newJobId) in old(jobApps) then AppExists
                    else Ok)
      ensures r != Ok ==> Snapshot() == old(Snapshot())
      ensures r == Ok ==> Snapshot() == old(Snapshot()).(jobApps :=
                (old(jobApps) - {(caregiverUserId, jobId)})[(newCaregiverUserId, newJobId) :=
                  old(jobApps)[(caregiverUserId, jobId)]])
      ensures r == Ok ==> (newCaregiverUserId, newJobId) in jobApps
      ensures r == Ok ==>
                jobApps[(newCaregiverUserId, newJobId)].dateApplied == old(jobApps)[(caregiverUserId, jobId)].dateApplied
      ensures r == Ok && (newCaregiverUserId, newJobId) != (caregiverUserId, jobId) ==>
                (caregiverUserId, jobId) !in jobApps
      ensures r == Ok ==> |jobApps| == |old(jobApps)|
      ensures r == Ok && (newCaregiverUserId, newJobId) == (caregiverUserId, jobId) ==> jobApps == old(jobApps)
      ensures Consistent(old(Snapshot())) ==> Consistent(Snapshot())
    {
      var oldKey, newKey := (caregiverUserId, jobId), (newCaregiverUserId, newJobId);
      if oldKey !in jobApps {
        return NotFound;
      }
      var app := jobApps[oldKey];
      if newCaregiverUserId !in caregivers {
        return CaregiverMissing;
      }
      if newJobId !in jobs {
        return JobMissing;
      }
      if newKey != oldKey && newKey in jobApps {
        return AppExists;
      }
      MoveKeepsSize(jobApps, oldKey, newKey);
      jobApps := jobApps - {oldKey};
      jobApps := jobApps[newKey := JobAppRow(app.dateApplied)];
      r := Ok;
    }

    /** delete_job_application: a 404 for an absent pair, otherwise the row goes. */
    method DeleteJobApp(caregiverUserId: int, jobId: int) returns (r: Outcome)
      modifies this
      ensures r == (if (caregiverUserId, jobId) in old(jobApps) then Ok else NotFound)
      ensures r != Ok ==> Snapshot() == old(Snapshot())
      ensures r == Ok ==> Snapshot() == old(Snapshot()).(jobApps := old(jobApps) - {(caregiverUserId, jobId)})
      ensures Consistent(old(Snapshot())) ==> Consistent(Snapshot())
    {
      if (caregiverUserId, jobId) !in jobApps {
        return NotFound;
      }
      jobApps := jobApps - {(caregiverUserId, jobId)};
      r := Ok;
    }

    // ----- Appointment -----

    /**
     * create_appointment: the key is computed first, then the caregiver and
     * the member are checked. The key is returned even when a check fails.
     */
    method CreateAppointment(row: AppointmentRow) returns (r: Outcome, id: int)
      modifies this
      ensures id == NextKey(old(appointments).Keys)
      ensures r == (if row.caregiverUserId !in old(caregivers) then CaregiverMissing
                    else if row.memberUserId !in old(members) then MemberMissing
                    else Ok)
      ensures r != Ok ==> Snapshot() == old(Snapshot())
      ensures r == Ok ==> Snapshot() == old(Snapshot()).(appointments := old(appointments)[id := row])
      ensures r == Ok ==> |appointments| == |old(appointments)| + 1
      ensures Consistent(old(Snapshot())) ==> Consistent(Snapshot())
    {
      id := NextKey(appointments.Keys);
      if row.caregiverUserId !in caregivers {
        return CaregiverMissing, id;
      }
      if row.memberUserId !in members {
        return MemberMissing, id;
      }
      appointments := appointments[id := row];
      r := Ok;
    }

    /** edit_appointment: a 404 for an absent key, then the caregiver and member checks; every field is rewritten. */
    method EditAppointment(id: int, row: AppointmentRow) returns (r: Outcome)
      modifies this
      ensures r == (if id !in old(appointments) then NotFound
                    else if row.caregiverUserId !in old(caregivers) then CaregiverMissing
                    else if row.memberUserId !in old(members) then MemberMissing
                    else Ok)
      ensures r != Ok ==> Snapshot() == old(Snapshot())
      ensures r == Ok ==> Snapshot() == old(Snapshot()).(appointments := old(appointments)[id := row])
      ensures Consistent(old(Snapshot())) ==> Consistent(Snapshot())
    {
      if id !in appointments {
        return NotFound;
      }
      if row.caregiverUserId !in caregivers {
        return CaregiverMissing;
      }
      if row.memberUserId !in members {
        return MemberMissing;
      }
      appointments := appointments[id := row];
      r := Ok;
    }

    /** delete_appointment: a 404 for an absent key, otherwise the row goes. */
    method DeleteAppointment(id: int) returns (r: Outcome)
      modifies this
      ensures r == (if id in old(appointments) then Ok else NotFound)
      ensures r != Ok ==> Snapshot() == old(Snapshot())
      ensures r == Ok ==> Snapshot() == old(Snapshot()).(appointments := old(appointments) - {id})
      ensures Consistent(old(Snapshot())) ==> Consistent(Snapshot())
    {
      if id !in appointments {
        return NotFound;
      }
      appointments := appointments - {id};
      r := Ok;
    }
  }
}
