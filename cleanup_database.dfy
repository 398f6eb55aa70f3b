/** The database audit of app/api/admin/cleanup-database/route.ts: users are
    grouped by email, and the report counts the duplicate emails, the users
    without a real Stack Auth id and the users without a company, lists them, and
    recommends what to fix. The `users` table is read once; its rows are the
    input. */
module CleanupDatabase {
  import opened Wrappers
  import opened TextUtil

  /** A row of `users`. A null `stackUserId` or `companyId` is the empty string,
      which is falsy like null. */
  datatype User = User(id: string, email: string, stackUserId: string, companyId: string, role: string)

  /** A group of users sharing one email. */
  datatype Group = Group(email: string, members: seq<User>)

  datatype DuplicateUser = DuplicateUser(id: string, stackUserId: string, companyId: string, role: string)
  datatype DuplicateDetail = DuplicateDetail(email: string, count: nat, users: seq<DuplicateUser>)
  datatype InvalidDetail = InvalidDetail(id: string, email: string, stackUserId: string, companyId: string)
  datatype OrphanDetail = OrphanDetail(id: string, email: string, stackUserId: string)

  datatype Report = Report(totalUsers: nat, duplicateEmails: nat, invalidStackUsers: nat, orphanedUsers: nat,
                           duplicateDetails: seq<DuplicateDetail>,
                           invalidStackUserDetails: seq<InvalidDetail>,
                           orphanedUserDetails: seq<OrphanDetail>,
                           recommendations: seq<string>)

  /** The JSON body `GET` answers with: the report, or the 500 error. */
  datatype Response = ReportBody(report: Report) | ServerError(error: string, details: string)

  /** The four recommendation texts. Each is written as its short heading
      followed by the rest of the sentence only as an aid to the proofs: the
      concatenation lets `RecommendationsShape` read the character that tells
      the headings apart without unfolding the whole literal. */
  const DuplicateAdvice: string := "🔧 DUPLICATE" + " EMAILS: Review and merge or remove duplicate user accounts"
  const InvalidAdvice: string := "🔧 INVALID" + " STACK IDS: Update users with proper Stack Auth user IDs"
  const OrphanAdvice: string := "🔧 ORPHANED" + " USERS: Assign users to appropriate companies"
  const CleanAdvice: string := "✅ No issues" + " found - database is clean"

  // ---------------------------------------------------------------------------
  // Grouping by email

  /** The distinct emails, in the order their first user appears: the key order
      of the `groups` object. */
  function Emails(users: seq<User>): seq<string>
    decreases |users|
  {
    if users == [] then []
    else
      var es := Emails(users[..|users| - 1]);
      var e := users[|users| - 1].email;
      if e in es then es else es + [e]
  }

  /** The users with email `e`, in table order. */
  function WithEmail(users: seq<User>, e: string): seq<User>
    decreases |users|
  {
    if users == [] then []
    else
      var last := users[|users| - 1];
      WithEmail(users[..|users| - 1], e) + (if last.email == e then [last] else [])
  }

  /** The `reduce` over the table: `groups[email]` is created empty on the first
      user with that email, then every user is appended to its email's group. */
  method GroupByEmail(users: seq<User>) returns (keys: seq<string>, groups: map<string, seq<User>>)
    ensures keys == Emails(users)
    ensures forall e :: e in groups <==> e in keys
    ensures forall e :: e in groups ==> groups[e] == WithEmail(users, e)
  {
    keys, groups := [], map[];
    var i := 0;
    while i < |users|
      invariant i <= |users|
      invariant Grouped(users[..i], keys, groups)
    {
      var user := users[i];
      ghost var keys0, groups0 := keys, groups;
      if user.email !in groups {
        keys := keys + [user.email];
        groups := groups[user.email := []];
      }
      groups := groups[user.email := groups[user.email] + [user]];
      GroupStep(users, i, keys0, groups0, keys, groups);
      i := i + 1;
    }
    assert users[..i] == users;
  }

  /** `keys` and `groups` as the `reduce` leaves them after the users `us`. */
  ghost predicate Grouped(us: seq<User>, keys: seq<string>, groups: map<string, seq<User>>) {
    keys == Emails(us)
    && (forall e :: e in groups <==> e in keys)
    && (forall e :: e in groups ==> groups[e] == WithEmail(us, e))
    && (forall e :: e !in groups ==> WithEmail(us, e) == [])
  }

  /** One step of the `reduce`: the user's email becomes a key if it was not one,
      and the user is appended to its group. */
  lemma {:induction false} GroupStep(users: seq<User>, i: nat, keys: seq<string>, groups: map<string, seq<User>>,
                                     keys': seq<string>, groups': map<string, seq<User>>)
    requires i < |users| && Grouped(users[..i], keys, groups)
    requires var u := users[i];
      keys' == if u.email in groups then keys else keys + [u.email]
    requires forall e :: e in groups' <==> e in groups || e == users[i].email
    requires forall e :: e in groups && e != users[i].email ==> groups'[e] == groups[e]
    requires var u := users[i];
      u.email in groups' && groups'[u.email] == (if u.email in groups then groups[u.email] else []) + [u]
    ensures Grouped(users[..i + 1], keys', groups')
  {
    var us, u, vs := users[..i], users[i], users[..i + 1];
    EmailsSnoc(users, i);
    forall e | e in groups' ensures groups'[e] == WithEmail(vs, e) {
      WithEmailSnoc(users, i, e);
    }
    forall e | e !in groups' ensures WithEmail(vs, e) == [] {
      WithEmailSnoc(users, i, e);
    }
  }

  lemma {:induction false} EmailsSnoc(users: seq<User>, i: nat)
    requires i < |users|
    ensures var es := Emails(users[..i]);
      Emails(users[..i + 1]) == if users[i].email in es then es else es + [users[i].email]
  {
    assert users[..i + 1][..i] == users[..i];
  }

  lemma {:induction false} WithEmailSnoc(users: seq<User>, i: nat, e: string)
    requires i < |users|
    ensures WithEmail(users[..i + 1], e) == WithEmail(users[..i], e) + (if users[i].email == e then [users[i]] else [])
  {
    assert users[..i + 1][..i] == users[..i];
  }

  /** Each user belongs to exactly the group of its own email. */
  lemma {:induction false} WithEmailExact(users: seq<User>, e: string)
    ensures forall u :: u in WithEmail(users, e) <==> u in users && u.email == e
    decreases |users|
  {
    if users != [] {
      var p := users[..|users| - 1];
      WithEmailExact(p, e);
      assert users == p + [users[|users| - 1]];
    }
  }

  /** An email is a group key exactly when some user has it; the keys are
      distinct. */
  lemma {:induction false} EmailsExact(users: seq<User>)
    ensures forall e :: e in Emails(users) <==> exists u :: u in users && u.email == e
    ensures forall i, j :: 0 <= i < j < |Emails(users)| ==> Emails(users)[i] != Emails(users)[j]
    decreases |users|
  {
    if users != [] {
      var p := users[..|users| - 1];
      var last := users[|users| - 1];
      EmailsExact(p);
      assert users == p + [last];
      forall e | e in Emails(users) ensures exists u :: u in users && u.email == e {
        if e in Emails(p) {
          var u :| u in p && u.email == e;
          assert u in users;
        } else {
          assert last in users;
        }
      }
    }
  }

  /** An email no user has has an empty group. */
  lemma {:induction false} WithEmailAbsent(users: seq<User>, e: string)
    requires e !in Emails(users)
    ensures WithEmail(users, e) == []
    decreases |users|
  {
    if users != [] {
      var p := users[..|users| - 1];
      WithEmailAbsent(p, e);
    }
  }

  /** The sizes of the groups for `keys`. */
  function SumSizes(users: seq<User>, keys: seq<string>): nat
    decreases |keys|
  {
    if keys == [] then 0 else SumSizes(users, keys[..|keys| - 1]) + |WithEmail(users, keys[|keys| - 1])|
  }

  /** One more user adds one to the sizes over distinct keys holding its email,
      nothing otherwise. */
  lemma {:induction false} SumSizesSnocUser(users: seq<User>, u: User, keys: seq<string>)
    requires forall i, j :: 0 <= i < j < |keys| ==> keys[i] != keys[j]
    ensures SumSizes(users + [u], keys) == SumSizes(users, keys) + (if u.email in keys then 1 else 0)
    decreases |keys|
  {
    if keys != [] {
      var ks := keys[..|keys| - 1];
      var k := keys[|keys| - 1];
      SumSizesSnocUser(users, u, ks);
      assert (users + [u])[..|users + [u]| - 1] == users;
      assert keys == ks + [k];
      assert u.email in keys <==> u.email in ks || u.email == k;
      assert k !in ks;
    }
  }

  /** The groups partition the table: their sizes add up to the number of
      users. */
  lemma {:induction false} GroupSizesSum(users: seq<User>)
    ensures SumSizes(users, Emails(users)) == |users|
    decreases |users|
  {
    if users != [] {
      var p := users[..|users| - 1];
      var u := users[|users| - 1];
      assert users == p + [u];
      GroupSizesSum(p);
      EmailsExact(p);
      SumSizesSnocUser(p, u, Emails(p));
      if u.email !in Emails(p) {
        WithEmailAbsent(p, u.email);
        assert Emails(users)[..|Emails(users)| - 1] == Emails(p);
      }
    }
  }

  // ---------------------------------------------------------------------------
  // The three selections

  /** `Object.entries(emailGroups).filter(([_, userList]) => userList.length > 1)`. */
  function Duplicates(users: seq<User>, keys: seq<string>): seq<Group>
    decreases |keys|
  {
    if keys == [] then []
    else
      var rest := Duplicates(users, keys[1..]);
      var members := WithEmail(users, keys[0]);
      if |members| > 1 then [Group(keys[0], members)] + rest else rest
  }

  /** The duplicate groups are exactly the emails shared by two or more users,
      each with its whole group. */
  lemma {:induction false} DuplicatesExact(users: seq<User>, keys: seq<string>)
    ensures forall g :: g in Duplicates(users, keys) <==>
      g.email in keys && g.members == WithEmail(users, g.email) && |g.members| > 1
    decreases |keys|
  {
    if keys != [] {
      DuplicatesExact(users, keys[1..]);
      assert forall e :: e in keys <==> e == keys[0] || e in keys[1..];
    }
  }

  /** `!user.stackUserId || user.stackUserId.startsWith('migrated-')`. */
  predicate InvalidStackUser(u: User) {
    u.stackUserId == [] || StartsWith(u.stackUserId, "migrated-")
  }

  /** `!user.companyId`. */
  predicate Orphaned(u: User) {
    u.companyId == []
  }

  function Filter(users: seq<User>, keep: User -> bool): seq<User>
    decreases |users|
  {
    if users == [] then []
    else if keep(users[0]) then [users[0]] + Filter(users[1..], keep)
    else Filter(users[1..], keep)
  }

  /** A filter keeps exactly the users that pass, in table order. */
  lemma {:induction false} FilterExact(users: seq<User>, keep: User -> bool)
    ensures forall u :: u in Filter(users, keep) <==> u in users && keep(u)
    ensures |Filter(users, keep)| <= |users|
    decreases |users|
  {
    if users != [] {
      FilterExact(users[1..], keep);
      assert forall u :: u in users <==> u == users[0] || u in users[1..];
    }
  }

  /** The invalid users are exactly those whose Stack id is missing or a
      placeholder left by the migration; the orphans exactly those without a
      company. */
  lemma {:induction false} SelectionsExact(users: seq<User>)
    ensures forall u :: u in Filter(users, InvalidStackUser) <==>
      u in users && (u.stackUserId == [] || StartsWith(u.stackUserId, "migrated-"))
    ensures forall u :: u in Filter(users, Orphaned) <==> u in users && u.companyId == []
  {
    FilterExact(users, InvalidStackUser);
    FilterExact(users, Orphaned);
  }

  // ---------------------------------------------------------------------------
  // The recommendations and the report

  /** The list `generateRecommendations` builds. */
  function Recommendations(duplicateCount: int, invalidCount: int, orphanedCount: int): seq<string> {
    var picks := (if duplicateCount > 0 then [DuplicateAdvice] else [])
                 + (if invalidCount > 0 then [InvalidAdvice] else [])
                 + (if orphanedCount > 0 then [OrphanAdvice] else []);
    if picks == [] then [CleanAdvice] else picks
  }

  /** `generateRecommendations`: one push per positive count, then the clean
      message if nothing was pushed. */
  method GenerateRecommendations(duplicateCount: int, invalidCount: int, orphanedCount: int) returns (recommendations: seq<string>)
    ensures recommendations == Recommendations(duplicateCount, invalidCount, orphanedCount)
  {
    recommendations := [];
    if duplicateCount > 0 {
      recommendations := recommendations + [DuplicateAdvice];
    }
    if invalidCount > 0 {
      recommendations := recommendations + [InvalidAdvice];
    }
    if orphanedCount > 0 {
      recommendations := recommendations + [OrphanAdvice];
    }
    if |recommendations| == 0 {
      recommendations := recommendations + [CleanAdvice];
    }
  }

  /** The position of a message in the fixed order duplicate, invalid, orphaned. */
  function Rank(m: string): nat {
    if m == DuplicateAdvice then 0 else if m == InvalidAdvice then 1 else if m == OrphanAdvice then 2 else 3
  }

  /** One message per positive count, in the order duplicate, invalid, orphaned;
      the clean message alone exactly when no count is positive; so one to three
      messages. */
  lemma {:induction false} RecommendationsShape(d: int, i: int, o: int)
    ensures var r := Recommendations(d, i, o);
      1 <= |r| <= 3
      && (DuplicateAdvice in r <==> d > 0)
      && (InvalidAdvice in r <==> i > 0)
      && (OrphanAdvice in r <==> o > 0)
      && (CleanAdvice in r <==> d <= 0 && i <= 0 && o <= 0)
      && (CleanAdvice in r ==> r == [CleanAdvice])
      && (forall a, b :: 0 <= a < b < |r| ==> Rank(r[a]) < Rank(r[b]))
  {
    assert DuplicateAdvice[2] == 'D';
    assert InvalidAdvice[2] == 'I';
    assert OrphanAdvice[2] == 'O';
    assert CleanAdvice[2] == 'N';
  }

  function DuplicateDetailOf(g: Group): DuplicateDetail {
    DuplicateDetail(g.email, |g.members|,
      seq(|g.members|, k requires 0 <= k < |g.members| =>
        DuplicateUser(g.members[k].id, g.members[k].stackUserId, g.members[k].companyId, g.members[k].role)))
  }

  function InvalidDetailOf(u: User): InvalidDetail {
    InvalidDetail(u.id, u.email, u.stackUserId, u.companyId)
  }

  function OrphanDetailOf(u: User): OrphanDetail {
    OrphanDetail(u.id, u.email, u.stackUserId)
  }

  /** The report built from the groups and the two selections. */
  function ReportOf(users: seq<User>, duplicates: seq<Group>, invalid: seq<User>, orphans: seq<User>): Report {
    Report(|users|, |duplicates|, |invalid|, |orphans|,
      seq(|duplicates|, k requires 0 <= k < |duplicates| => DuplicateDetailOf(duplicates[k])),
      seq(|invalid|, k requires 0 <= k < |invalid| => InvalidDetailOf(invalid[k])),
      seq(|orphans|, k requires 0 <= k < |orphans| => OrphanDetailOf(orphans[k])),
      Recommendations(|duplicates|, |invalid|, |orphans|))
  }

  /** The audit of a table: its groups, selections and report. */
  function Audit(users: seq<User>): Report {
    ReportOf(users, Duplicates(users, Emails(users)), Filter(users, InvalidStackUser), Filter(users, Orphaned))
  }

  /** `GET`: read the table, group, select, report; a failed read answers with
      the 500 error and its message. */
  method Get(table: Result<seq<User>>) returns (response: Response)
    ensures table.Err? ==> response == ServerError("Database cleanup failed", table.message)
    ensures table.Ok? ==> response == ReportBody(Audit(table.value))
  {
    if table.Err? {
      return ServerError("Database cleanup failed", table.message);
    }
    var allUsers := table.value;
    var keys, groups := GroupByEmail(allUsers);
    var duplicates := DuplicatesOf(allUsers, keys, groups);
    var invalid := Filter(allUsers, InvalidStackUser);
    var orphans := Filter(allUsers, Orphaned);
    var recommendations := GenerateRecommendations(|duplicates|, |invalid|, |orphans|);
    response := ReportBody(Report(|allUsers|, |duplicates|, |invalid|, |orphans|,
      seq(|duplicates|, k requires 0 <= k < |duplicates| => DuplicateDetailOf(duplicates[k])),
      seq(|invalid|, k requires 0 <= k < |invalid| => InvalidDetailOf(invalid[k])),
      seq(|orphans|, k requires 0 <= k < |orphans| => OrphanDetailOf(orphans[k])),
      recommendations));
  }

  /** The duplicate filter over the grouped entries, in key order. */
  method DuplicatesOf(users: seq<User>, keys: seq<string>, groups: map<string, seq<User>>) returns (duplicates: seq<Group>)
    requires forall e :: e in groups <==> e in keys
    requires forall e :: e in groups ==> groups[e] == WithEmail(users, e)
    ensures duplicates == Duplicates(users, keys)
  {
    duplicates := [];
    var i := |keys|;
    while i > 0
      invariant 0 <= i <= |keys|
      invariant duplicates == Duplicates(users, keys[i..])
    {
      i := i - 1;
      assert keys[i..][1..] == keys[i + 1..];
      var members := groups[keys[i]];
      if |members| > 1 {
        duplicates := [Group(keys[i], members)] + duplicates;
      }
    }
  }

  /** Every count in the report is the length of its list, the total is the sum
      of the group sizes, and each duplicate entry counts its users, more than
      one. */
  lemma {:induction false} ReportConsistent(users: seq<User>)
    ensures var r := Audit(users);
      r.totalUsers == SumSizes(users, Emails(users))
      && r.duplicateEmails == |r.duplicateDetails|
      && r.invalidStackUsers == |r.invalidStackUserDetails|
      && r.orphanedUsers == |r.orphanedUserDetails|
      && (forall k :: 0 <= k < |r.duplicateDetails| ==>
            r.duplicateDetails[k].count == |r.duplicateDetails[k].users| && r.duplicateDetails[k].count > 1)
  {
    GroupSizesSum(users);
    var dups := Duplicates(users, Emails(users));
    DuplicatesExact(users, Emails(users));
    forall k | 0 <= k < |dups| ensures |dups[k].members| > 1 {
      assert dups[k] in dups;
    }
  }
}
