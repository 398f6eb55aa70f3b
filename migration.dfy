/** `runMigration` of lib/db/migrations/001_multi_tenant_migration.ts, steps 2 to
    5: create the default company, copy every legacy user into it, then re-parent
    the legacy chats onto the new users and the legacy messages onto the new chats,
    skipping rows whose parent was not migrated, and report the counts. The tables
    are sequences held by `Database`; `insert … returning` appends a row whose id
    is drawn from the counter `nextId`. */
module Migration {
  import opened Wrappers

  const DefaultCompanyName: string := "Default Organization"
  const DefaultStackOrgId: string := "default-org-migration"
  /** The prefix of the temporary Stack Auth id given to a migrated user. */
  const MigratedPrefix: string := "migrated-"
  const NoConnection: string := "Database connection string not found"

  /** A JSON column value. Numbers are integers. */
  datatype Json =
    | JNull
    | JBool(b: bool)
    | JNumber(n: int)
    | JString(s: string)
    | JArray(items: seq<Json>)
    | JObject(members: seq<(string, Json)>)

  /** The JSON values JavaScript's `||` treats as false. */
  predicate Falsy(j: Json) {
    j == JNull || j == JBool(false) || j == JNumber(0) || j == JString("")
  }

  // ---------------------------------------------------------------------------
  // Rows

  /** A row of the legacy `User` table, as far as the migration reads it. */
  datatype LegacyUser = LegacyUser(id: string, email: string)

  /** A row of the legacy `Chat` table; `visibility` may be null. */
  datatype LegacyChat = LegacyChat(id: string, userId: string, title: string, visibility: Option<string>, createdAt: int)

  /** A row of the legacy `Message_v2` table. */
  datatype LegacyMessage = LegacyMessage(id: string, chatId: string, role: string, parts: Json, attachments: Json, createdAt: int)

  /** A row of the deprecated `Message` table, whose `content` predates `parts`. */
  datatype DeprecatedMessage = DeprecatedMessage(id: string, chatId: string, role: string, content: Json, createdAt: int)

  datatype Company = Company(id: nat, stackOrgId: string, name: string, settings: Json, subscriptionTier: string, isActive: bool)

  datatype User = User(id: nat, stackUserId: string, companyId: nat, email: string,
                       firstName: Option<string>, lastName: Option<string>, role: string,
                       employeeId: Option<string>, department: Option<string>, hireDate: Option<int>,
                       isActive: bool)

  datatype Chat = Chat(id: nat, userId: nat, companyId: nat, title: string, visibility: string, createdAt: int)

  datatype Message = Message(id: nat, chatId: nat, role: string, parts: Json, attachments: Json, createdAt: int)

  /** The `{ legacy, new }` pairs pushed onto `migratedUsers` and `migratedChats`. */
  datatype UserMapping = UserMapping(legacy: LegacyUser, migrated: User)
  datatype ChatMapping = ChatMapping(legacy: LegacyChat, migrated: Chat)

  /** The object `runMigration` resolves to. */
  datatype Summary = Summary(success: bool, defaultCompanyId: nat, migratedUsers: nat, migratedChats: nat)

  function LegacyUserId(m: UserMapping): string { m.legacy.id }
  function LegacyChatId(m: ChatMapping): string { m.legacy.id }
  function ChatOwner(c: LegacyChat): string { c.userId }
  function MessageChat(m: LegacyMessage): string { m.chatId }

  // ---------------------------------------------------------------------------
  // `find` and the rows it lets through

  /** `xs.find(x => key(x) === wanted)`: the first element with that key. */
  function Find<T>(xs: seq<T>, key: T -> string, wanted: string): Option<T>
    decreases |xs|
  {
    if xs == [] then None
    else if key(xs[0]) == wanted then Some(xs[0])
    else Find(xs[1..], key, wanted)
  }

  /** `Find` succeeds exactly when some element has the key, and then returns
      the first such element. */
  lemma {:induction false} FindFirst<T>(xs: seq<T>, key: T -> string, wanted: string)
    ensures Find(xs, key, wanted).Some? <==> wanted in Keys(xs, key)
    ensures Find(xs, key, wanted).Some? ==>
      exists k :: 0 <= k < |xs| && xs[k] == Find(xs, key, wanted).value && key(xs[k]) == wanted
                  && forall j :: 0 <= j < k ==> key(xs[j]) != wanted
    decreases |xs|
  {
    if xs != [] && key(xs[0]) != wanted {
      FindFirst(xs[1..], key, wanted);
      assert forall k :: 0 < k < |xs| ==> xs[k] == xs[1..][k - 1];
      if wanted in Keys(xs, key) {
        var k :| 0 <= k < |xs| && key(xs[k]) == wanted;
        assert key(xs[1..][k - 1]) == wanted;
      }
    } else if xs != [] {
      assert key(xs[0]) in Keys(xs, key);
    }
  }

  /** The keys present in a list. */
  function Keys<T>(xs: seq<T>, key: T -> string): set<string> {
    set k | 0 <= k < |xs| :: key(xs[k])
  }

  /** The rows whose key is in `present`, in their order: an independent
      description of which rows a loop that skips unmatched parents keeps. */
  function Kept<T>(rows: seq<T>, key: T -> string, present: set<string>): seq<T>
    decreases |rows|
  {
    if rows == [] then []
    else
      var last := rows[|rows| - 1];
      Kept(rows[..|rows| - 1], key, present) + (if key(last) in present then [last] else [])
  }

  /** A row is kept exactly when it is one of the rows and its key is present. */
  lemma {:induction false} KeptIff<T>(rows: seq<T>, key: T -> string, present: set<string>, x: T)
    ensures x in Kept(rows, key, present) <==> x in rows && key(x) in present
    decreases |rows|
  {
    if rows != [] {
      var init := rows[..|rows| - 1];
      KeptIff(init, key, present, x);
      assert rows == init + [rows[|rows| - 1]];
    }
  }

  /** Keeping never adds rows. */
  lemma {:induction false} KeptShorter<T>(rows: seq<T>, key: T -> string, present: set<string>)
    ensures |Kept(rows, key, present)| <= |rows|
    ensures (forall k :: 0 <= k < |rows| ==> key(rows[k]) in present) ==> Kept(rows, key, present) == rows
    decreases |rows|
  {
    if rows != [] {
      var init, last := rows[..|rows| - 1], rows[|rows| - 1];
      KeptShorter(init, key, present);
      assert rows == init + [last];
      if forall k :: 0 <= k < |rows| ==> key(rows[k]) in present {
        assert forall k :: 0 <= k < |init| ==> init[k] == rows[k];
        assert key(last) in present;
      }
    }
  }

  // ---------------------------------------------------------------------------
  // The new rows

  /** Step 2: the default company. */
  function DefaultCompany(id: nat): Company {
    Company(id, DefaultStackOrgId, DefaultCompanyName, JObject([]), "basic", true)
  }

  /** Step 3: the new user for a legacy user: a temporary Stack Auth id, the
      default company, the legacy e-mail, the `employee` role, no profile fields,
      active. */
  function MigratedUser(legacy: LegacyUser, companyId: nat, id: nat): User {
    User(id, MigratedPrefix + legacy.id, companyId, legacy.email, None, None, "employee", None, None, None, true)
  }

  /** `legacyChat.visibility || 'private'`. */
  function Visibility(v: Option<string>): (r: string)
    ensures r != []
    ensures r == "private" || v == Some(r)
    ensures (v == None || v == Some("")) ==> r == "private"
  {
    if v.None? || v.value == "" then "private" else v.value
  }

  /** Step 4: the new chat of a legacy chat, owned by the mapped new user. */
  function MigratedChat(legacy: LegacyChat, owner: User, companyId: nat, id: nat): Chat {
    Chat(id, owner.id, companyId, legacy.title, Visibility(legacy.visibility), legacy.createdAt)
  }

  /** `legacyMessage.attachments || []`. */
  function OrEmpty(j: Json): (r: Json)
    ensures !Falsy(r)
    ensures !Falsy(j) ==> r == j
    ensures Falsy(j) ==> r == JArray([])
  {
    if Falsy(j) then JArray([]) else j
  }

  /** Step 5: the new message of a legacy message, in the mapped new chat. */
  function MigratedMessage(legacy: LegacyMessage, chat: Chat, id: nat): Message {
    Message(id, chat.id, legacy.role, legacy.parts, OrEmpty(legacy.attachments), legacy.createdAt)
  }

  /** The single text part a deprecated message becomes: string content as is,
      any other content serialised by `stringify` (`JSON.stringify`). */
  function TextParts(content: Json, stringify: Json -> string): Json {
    var text := if content.JString? then content.s else stringify(content);
    JArray([JObject([("type", JString("text")), ("text", JString(text))])])
  }

  /** The parts hold exactly one `text` part; string content is carried over
      unchanged and only other content goes through `stringify`. */
  lemma {:induction false} TextPartsShape(content: Json, stringify: Json -> string)
    ensures var r := TextParts(content, stringify);
      r.JArray? && |r.items| == 1 && r.items[0].JObject? && |r.items[0].members| == 2
      && r.items[0].members[0] == ("type", JString("text")) && r.items[0].members[1].0 == "text"
      && (content.JString? ==> r.items[0].members[1].1 == content)
      && (!content.JString? ==> r.items[0].members[1].1 == JString(stringify(content)))
  {
  }

  /** A deprecated message in the `Message_v2` shape: its content as one text part
      and no attachments. */
  function Upgraded(d: DeprecatedMessage, stringify: Json -> string): LegacyMessage {
    LegacyMessage(d.id, d.chatId, d.role, TextParts(d.content, stringify), JArray([]), d.createdAt)
  }

  function UpgradedAll(ds: seq<DeprecatedMessage>, stringify: Json -> string): seq<LegacyMessage> {
    seq(|ds|, k requires 0 <= k < |ds| => Upgraded(ds[k], stringify))
  }

  /** The message inserted for a deprecated message, in the mapped new chat. */
  function ConvertedMessage(d: DeprecatedMessage, chat: Chat, id: nat, stringify: Json -> string): Message {
    Message(id, chat.id, d.role, TextParts(d.content, stringify), JArray([]), d.createdAt)
  }

  /** A deprecated message migrates like a current one carrying its text part:
      `OrEmpty` keeps the empty attachment list it is given. */
  lemma {:induction false} UpgradedMigrates(d: DeprecatedMessage, chat: Chat, id: nat, stringify: Json -> string)
    ensures MigratedMessage(Upgraded(d, stringify), chat, id) == ConvertedMessage(d, chat, id, stringify)
  {
    assert !Falsy(JArray([]));
  }

  // ---------------------------------------------------------------------------
  // What the loops produce

  /** The `migratedUsers` list: one entry per legacy user, in order, the new
      users taking consecutive ids from `start`. */
  function UserMappings(legacy: seq<LegacyUser>, companyId: nat, start: nat): seq<UserMapping> {
    seq(|legacy|, k requires 0 <= k < |legacy| => UserMapping(legacy[k], MigratedUser(legacy[k], companyId, start + k)))
  }

  /** One new user per legacy user, in order: the temporary Stack Auth id
      `migrated-<legacy id>`, the given company, the legacy e-mail, the
      `employee` role, active, and consecutive ids from `start`. */
  lemma {:induction false} UserMappingsMeaning(legacy: seq<LegacyUser>, companyId: nat, start: nat)
    ensures |UserMappings(legacy, companyId, start)| == |legacy|
    ensures forall k :: 0 <= k < |legacy| ==>
      UserMappings(legacy, companyId, start)[k].legacy == legacy[k]
      && UserMappings(legacy, companyId, start)[k].migrated
         == User(start + k, MigratedPrefix + legacy[k].id, companyId, legacy[k].email,
                 None, None, "employee", None, None, None, true)
  {
  }

  /** The `migratedChats` list: the chats whose owner was migrated, in order,
      each re-parented onto the first new user mapped from its owner; the new
      chats take consecutive ids from `start` (`ChatMappingsMeaning`). */
  function ChatMappings(chats: seq<LegacyChat>, users: seq<UserMapping>, companyId: nat, start: nat): seq<ChatMapping>
    decreases |chats|
  {
    if chats == [] then []
    else
      var prev := ChatMappings(chats[..|chats| - 1], users, companyId, start);
      var c := chats[|chats| - 1];
      match Find(users, LegacyUserId, c.userId)
      case None => prev
      case Some(m) => prev + [ChatMapping(c, MigratedChat(c, m.migrated, companyId, start + |prev|))]
  }

  /** The chats migrated are the legacy chats whose owner is among the mapped
      users, in order, and each new chat is that chat owned by the first such
      user, in the default company, with the next id. */
  lemma {:induction false} ChatMappingsMeaning(chats: seq<LegacyChat>, users: seq<UserMapping>, companyId: nat, start: nat)
    ensures var r := ChatMappings(chats, users, companyId, start);
      |r| == |Kept(chats, ChatOwner, Keys(users, LegacyUserId))|
      && forall k :: 0 <= k < |r| ==>
        r[k].legacy == Kept(chats, ChatOwner, Keys(users, LegacyUserId))[k]
        && Find(users, LegacyUserId, r[k].legacy.userId).Some?
        && r[k].migrated == MigratedChat(r[k].legacy, Find(users, LegacyUserId, r[k].legacy.userId).value.migrated, companyId, start + k)
    decreases |chats|
  {
    if chats != [] {
      ChatMappingsMeaning(chats[..|chats| - 1], users, companyId, start);
      FindFirst(users, LegacyUserId, chats[|chats| - 1].userId);
    }
  }

  /** The messages inserted from `rows`: those whose chat was migrated, in order,
      each moved into the first new chat mapped from its chat; they take
      consecutive ids from `start` (`MigratedMessagesMeaning`). */
  function MigratedMessages(rows: seq<LegacyMessage>, chats: seq<ChatMapping>, start: nat): seq<Message>
    decreases |rows|
  {
    if rows == [] then []
    else
      var prev := MigratedMessages(rows[..|rows| - 1], chats, start);
      var m := rows[|rows| - 1];
      match Find(chats, LegacyChatId, m.chatId)
      case None => prev
      case Some(c) => prev + [MigratedMessage(m, c.migrated, start + |prev|)]
  }

  /** The messages migrated are the rows whose chat was migrated, in order, each
      in the first new chat mapped from its chat, with the next id. */
  lemma {:induction false} MigratedMessagesMeaning(rows: seq<LegacyMessage>, chats: seq<ChatMapping>, start: nat)
    ensures var r := MigratedMessages(rows, chats, start);
      |r| == |Kept(rows, MessageChat, Keys(chats, LegacyChatId))|
      && forall k :: 0 <= k < |r| ==>
        Find(chats, LegacyChatId, Kept(rows, MessageChat, Keys(chats, LegacyChatId))[k].chatId).Some?
        && r[k] == MigratedMessage(Kept(rows, MessageChat, Keys(chats, LegacyChatId))[k],
                                   Find(chats, LegacyChatId, Kept(rows, MessageChat, Keys(chats, LegacyChatId))[k].chatId).value.migrated,
                                   start + k)
    decreases |rows|
  {
    if rows != [] {
      MigratedMessagesMeaning(rows[..|rows| - 1], chats, start);
      FindFirst(chats, LegacyChatId, rows[|rows| - 1].chatId);
    }
  }

  /** The messages inserted from the deprecated rows: those whose chat was
      migrated, in order, converted to one text part, with consecutive ids from
      `start` (`ConvertedAsMigrated`). */
  function ConvertedMessages(ds: seq<DeprecatedMessage>, chats: seq<ChatMapping>, start: nat, stringify: Json -> string): seq<Message>
    decreases |ds|
  {
    if ds == [] then []
    else
      var prev := ConvertedMessages(ds[..|ds| - 1], chats, start, stringify);
      var d := ds[|ds| - 1];
      match Find(chats, LegacyChatId, d.chatId)
      case None => prev
      case Some(c) => prev + [ConvertedMessage(d, c.migrated, start + |prev|, stringify)]
  }

  /** Converting the deprecated rows inserts exactly what migrating them as
      current messages with their text parts would. */
  lemma {:induction false} ConvertedAsMigrated(ds: seq<DeprecatedMessage>, chats: seq<ChatMapping>, start: nat, stringify: Json -> string)
    ensures ConvertedMessages(ds, chats, start, stringify) == MigratedMessages(UpgradedAll(ds, stringify), chats, start)
    decreases |ds|
  {
    if ds != [] {
      var n := |ds| - 1;
      ConvertedAsMigrated(ds[..n], chats, start, stringify);
      var rows := UpgradedAll(ds, stringify);
      assert rows[..n] == UpgradedAll(ds[..n], stringify);
      assert rows[n] == Upgraded(ds[n], stringify);
      var prev := ConvertedMessages(ds[..n], chats, start, stringify);
      match Find(chats, LegacyChatId, ds[n].chatId)
      case None =>
      case Some(c) =>
        UpgradedMigrates(ds[n], c.migrated, start + |prev|, stringify);
    }
  }

  function NewUsers(ms: seq<UserMapping>): (r: seq<User>)
    ensures |r| == |ms| && forall k :: 0 <= k < |ms| ==> r[k] == ms[k].migrated
  {
    seq(|ms|, k requires 0 <= k < |ms| => ms[k].migrated)
  }

  function NewChats(ms: seq<ChatMapping>): (r: seq<Chat>)
    ensures |r| == |ms| && forall k :: 0 <= k < |ms| ==> r[k] == ms[k].migrated
  {
    seq(|ms|, k requires 0 <= k < |ms| => ms[k].migrated)
  }

  /** Everything steps 2 to 5 insert, with ids drawn from `start` on. */
  datatype Outcome = Outcome(company: Company, users: seq<UserMapping>, chats: seq<ChatMapping>,
                             messages: seq<Message>, deprecated: seq<Message>)

  /** The rows of the deprecated table, or none when reading it throws. */
  function DeprecatedRows(table: Option<seq<DeprecatedMessage>>): seq<DeprecatedMessage> {
    if table.Some? then table.value else []
  }

  function Migrate(legacyUsers: seq<LegacyUser>, legacyChats: seq<LegacyChat>, legacyMessages: seq<LegacyMessage>,
                   deprecated: Option<seq<DeprecatedMessage>>, stringify: Json -> string, start: nat): Outcome
  {
    var company := DefaultCompany(start);
    var users := UserMappings(legacyUsers, company.id, start + 1);
    var chats := ChatMappings(legacyChats, users, company.id, start + 1 + |users|);
    var messages := MigratedMessages(legacyMessages, chats, start + 1 + |users| + |chats|);
    var older := ConvertedMessages(DeprecatedRows(deprecated), chats, start + 1 + |users| + |chats| + |messages|, stringify);
    Outcome(company, users, chats, messages, older)
  }

  /** `Migrate` is the outcome of its five steps taken one after the other. */
  lemma {:induction false} MigrateIs(legacyUsers: seq<LegacyUser>, legacyChats: seq<LegacyChat>, legacyMessages: seq<LegacyMessage>,
                                     deprecated: Option<seq<DeprecatedMessage>>, stringify: Json -> string, start: nat,
                                     company: Company, users: seq<UserMapping>, chats: seq<ChatMapping>,
                                     current: seq<Message>, older: seq<Message>)
    requires company == DefaultCompany(start)
    requires users == UserMappings(legacyUsers, company.id, start + 1)
    requires chats == ChatMappings(legacyChats, users, company.id, start + 1 + |users|)
    requires current == MigratedMessages(legacyMessages, chats, start + 1 + |users| + |chats|)
    requires older == ConvertedMessages(DeprecatedRows(deprecated), chats, start + 1 + |users| + |chats| + |current|, stringify)
    ensures Migrate(legacyUsers, legacyChats, legacyMessages, deprecated, stringify, start) == Outcome(company, users, chats, current, older)
  {
  }

  /** The tables after the five steps, in terms of their outcome `o`. */
  lemma {:induction false} StepsOutcome(o: Outcome, start: nat, company: Company, users: seq<UserMapping>,
                                        chats: seq<ChatMapping>, current: seq<Message>, older: seq<Message>,
                                        companies0: seq<Company>, users0: seq<User>, chats0: seq<Chat>, messages0: seq<Message>,
                                        companies1: seq<Company>, users1: seq<User>, chats1: seq<Chat>, messages1: seq<Message>,
                                        nextId: nat)
    requires o == Outcome(company, users, chats, current, older)
    requires companies1 == companies0 + [company] && users1 == users0 + NewUsers(users)
    requires chats1 == chats0 + NewChats(chats) && messages1 == messages0 + current + older
    requires nextId == start + 1 + |users| + |chats| + |current| + |older|
    ensures company == o.company && users == o.users && chats == o.chats
    ensures companies1 == companies0 + [o.company] && users1 == users0 + NewUsers(o.users)
    ensures chats1 == chats0 + NewChats(o.chats) && messages1 == messages0 + o.messages + o.deprecated
    ensures nextId == start + Drawn(o)
  {
  }

  /** The number of ids the migration draws. */
  function Drawn(o: Outcome): nat {
    1 + |o.users| + |o.chats| + |o.messages| + |o.deprecated|
  }

  /** `process.env.POSTGRES_URL_NO_SSL || process.env.POSTGRES_URL`, where an
      unset or empty variable is false. */
  function Connection(noSsl: Option<string>, url: Option<string>): (r: Option<string>)
    ensures r.Some? <==> (noSsl.Some? && noSsl.value != "") || (url.Some? && url.value != "")
    ensures r.Some? ==> r.value != ""
  {
    if noSsl.Some? && noSsl.value != "" then noSsl
    else if url.Some? && url.value != "" then url
    else None
  }

  // ---------------------------------------------------------------------------
  // Properties of the migration

  /** A user is found by its legacy id exactly when a legacy user had that id. */
  lemma {:induction false} UserKeys(legacy: seq<LegacyUser>, companyId: nat, start: nat)
    ensures Keys(UserMappings(legacy, companyId, start), LegacyUserId) == set u | u in legacy :: u.id
  {
    var ms := UserMappings(legacy, companyId, start);
    forall x | x in set u | u in legacy :: u.id
      ensures x in Keys(ms, LegacyUserId)
    {
      var u :| u in legacy && u.id == x;
      var k :| 0 <= k < |legacy| && legacy[k] == u;
      assert LegacyUserId(ms[k]) == x;
    }
  }

  /** The counts `runMigration` returns: one migrated user per legacy user, and
      one migrated chat per legacy chat whose owner is among the legacy users. */
  lemma {:induction false} Counts(legacyUsers: seq<LegacyUser>, legacyChats: seq<LegacyChat>, legacyMessages: seq<LegacyMessage>,
               deprecated: Option<seq<DeprecatedMessage>>, stringify: Json -> string, start: nat)
    ensures var o := Migrate(legacyUsers, legacyChats, legacyMessages, deprecated, stringify, start);
      |o.users| == |legacyUsers|
      && |o.chats| == |Kept(legacyChats, ChatOwner, set u | u in legacyUsers :: u.id)|
      && (forall c :: c in Kept(legacyChats, ChatOwner, set u | u in legacyUsers :: u.id) <==>
            c in legacyChats && exists u :: u in legacyUsers && u.id == c.userId)
  {
    UserKeys(legacyUsers, start, start + 1);
    UserMappingsMeaning(legacyUsers, start, start + 1);
    ChatMappingsMeaning(legacyChats, UserMappings(legacyUsers, start, start + 1), start, start + 1 + |legacyUsers|);
    forall c ensures c in Kept(legacyChats, ChatOwner, set u | u in legacyUsers :: u.id) <==>
                     c in legacyChats && exists u :: u in legacyUsers && u.id == c.userId
    {
      KeptIff(legacyChats, ChatOwner, set u | u in legacyUsers :: u.id, c);
    }
  }

  /** A message is migrated exactly when it is one of the rows and its chat was
      migrated. */
  lemma {:induction false} MessageKeptIff(rows: seq<LegacyMessage>, chats: seq<ChatMapping>, m: LegacyMessage)
    ensures m in Kept(rows, MessageChat, Keys(chats, LegacyChatId)) <==>
            m in rows && exists k :: 0 <= k < |chats| && chats[k].legacy.id == m.chatId
  {
    KeptIff(rows, MessageChat, Keys(chats, LegacyChatId), m);
    if m.chatId in Keys(chats, LegacyChatId) {
      var k :| 0 <= k < |chats| && LegacyChatId(chats[k]) == m.chatId;
    }
  }

  /** Every inserted row points at rows inserted before it: each new user and each
      new chat is in the default company, each new chat is owned by a new user
      and each new message, current or converted, lies in a new chat. */
  lemma {:induction false} Integrity(legacyUsers: seq<LegacyUser>, legacyChats: seq<LegacyChat>, legacyMessages: seq<LegacyMessage>,
                  deprecated: Option<seq<DeprecatedMessage>>, stringify: Json -> string, start: nat, o: Outcome)
    requires o == Migrate(legacyUsers, legacyChats, legacyMessages, deprecated, stringify, start)
    ensures forall k :: 0 <= k < |o.users| ==> o.users[k].migrated.companyId == o.company.id
    ensures forall k :: 0 <= k < |o.chats| ==>
      o.chats[k].migrated.companyId == o.company.id
      && exists j :: 0 <= j < |o.users| && o.users[j].migrated.id == o.chats[k].migrated.userId
    ensures forall k :: 0 <= k < |o.messages| ==>
      exists j :: 0 <= j < |o.chats| && o.chats[j].migrated.id == o.messages[k].chatId
    ensures forall k :: 0 <= k < |o.deprecated| ==>
      exists j :: 0 <= j < |o.chats| && o.chats[j].migrated.id == o.deprecated[k].chatId
  {
    UsersInCompany(legacyUsers, legacyChats, legacyMessages, deprecated, stringify, start, o);
    ChatsInCompany(legacyUsers, legacyChats, legacyMessages, deprecated, stringify, start, o);
    MessagesInNewChats(legacyUsers, legacyChats, legacyMessages, deprecated, stringify, start, o);
    DeprecatedInNewChats(legacyUsers, legacyChats, legacyMessages, deprecated, stringify, start, o);
  }

  /** Each new user is in the default company. */
  lemma {:induction false} UsersInCompany(legacyUsers: seq<LegacyUser>, legacyChats: seq<LegacyChat>, legacyMessages: seq<LegacyMessage>,
                  deprecated: Option<seq<DeprecatedMessage>>, stringify: Json -> string, start: nat, o: Outcome)
    requires o == Migrate(legacyUsers, legacyChats, legacyMessages, deprecated, stringify, start)
    ensures forall k :: 0 <= k < |o.users| ==> o.users[k].migrated.companyId == o.company.id
  {
    UserMappingsMeaning(legacyUsers, start, start + 1);
  }

  /** Each new chat is in the default company and owned by a new user. */
  lemma {:induction false} ChatsInCompany(legacyUsers: seq<LegacyUser>, legacyChats: seq<LegacyChat>, legacyMessages: seq<LegacyMessage>,
                  deprecated: Option<seq<DeprecatedMessage>>, stringify: Json -> string, start: nat, o: Outcome)
    requires o == Migrate(legacyUsers, legacyChats, legacyMessages, deprecated, stringify, start)
    ensures forall k :: 0 <= k < |o.chats| ==>
      o.chats[k].migrated.companyId == o.company.id
      && exists j :: 0 <= j < |o.users| && o.users[j].migrated.id == o.chats[k].migrated.userId
  {
    ChatsOwned(legacyChats, o.users, start, start + 1 + |o.users|);
  }

  /** Each message carried over from `Message_v2` lies in a new chat. */
  lemma {:induction false} MessagesInNewChats(legacyUsers: seq<LegacyUser>, legacyChats: seq<LegacyChat>, legacyMessages: seq<LegacyMessage>,
                  deprecated: Option<seq<DeprecatedMessage>>, stringify: Json -> string, start: nat, o: Outcome)
    requires o == Migrate(legacyUsers, legacyChats, legacyMessages, deprecated, stringify, start)
    ensures forall k :: 0 <= k < |o.messages| ==>
      exists j :: 0 <= j < |o.chats| && o.chats[j].migrated.id == o.messages[k].chatId
  {
    var first := start + 1 + |o.users| + |o.chats|;
    assert o.messages == MigratedMessages(legacyMessages, o.chats, first);
    MessagesInChats(legacyMessages, o.chats, first);
  }

  /** Each message converted from the deprecated table lies in a new chat. */
  lemma {:induction false} DeprecatedInNewChats(legacyUsers: seq<LegacyUser>, legacyChats: seq<LegacyChat>, legacyMessages: seq<LegacyMessage>,
                  deprecated: Option<seq<DeprecatedMessage>>, stringify: Json -> string, start: nat, o: Outcome)
    requires o == Migrate(legacyUsers, legacyChats, legacyMessages, deprecated, stringify, start)
    ensures forall k :: 0 <= k < |o.deprecated| ==>
      exists j :: 0 <= j < |o.chats| && o.chats[j].migrated.id == o.deprecated[k].chatId
  {
    var first := start + 1 + |o.users| + |o.chats| + |o.messages|;
    assert o.deprecated == ConvertedMessages(DeprecatedRows(deprecated), o.chats, first, stringify);
    ConvertedInChats(DeprecatedRows(deprecated), o.chats, first, stringify);
  }

  /** Each converted deprecated message lies in one of the new chats. */
  lemma {:induction false} ConvertedInChats(ds: seq<DeprecatedMessage>, chats: seq<ChatMapping>, start: nat, stringify: Json -> string)
    ensures forall k :: 0 <= k < |ConvertedMessages(ds, chats, start, stringify)| ==>
      exists j :: 0 <= j < |chats| && chats[j].migrated.id == ConvertedMessages(ds, chats, start, stringify)[k].chatId
  {
    ConvertedAsMigrated(ds, chats, start, stringify);
    MessagesInChats(UpgradedAll(ds, stringify), chats, start);
  }

  /** Each migrated chat is in the given company and owned by one of the new
      users. */
  lemma {:induction false} ChatsOwned(chats: seq<LegacyChat>, users: seq<UserMapping>, companyId: nat, start: nat)
    ensures forall k :: 0 <= k < |ChatMappings(chats, users, companyId, start)| ==>
      ChatMappings(chats, users, companyId, start)[k].migrated.companyId == companyId
      && exists j :: 0 <= j < |users| && users[j].migrated.id == ChatMappings(chats, users, companyId, start)[k].migrated.userId
  {
    var r := ChatMappings(chats, users, companyId, start);
    ChatMappingsMeaning(chats, users, companyId, start);
    forall k | 0 <= k < |r|
      ensures exists j :: 0 <= j < |users| && users[j].migrated.id == r[k].migrated.userId
    {
      FindFirst(users, LegacyUserId, r[k].legacy.userId);
      var m := Find(users, LegacyUserId, r[k].legacy.userId).value;
      var j :| 0 <= j < |users| && users[j] == m;
    }
  }

  /** Each migrated message lies in one of the new chats. */
  lemma {:induction false} MessagesInChats(rows: seq<LegacyMessage>, chats: seq<ChatMapping>, start: nat)
    ensures forall k :: 0 <= k < |MigratedMessages(rows, chats, start)| ==>
      exists j :: 0 <= j < |chats| && chats[j].migrated.id == MigratedMessages(rows, chats, start)[k].chatId
  {
    var r := MigratedMessages(rows, chats, start);
    MigratedMessagesMeaning(rows, chats, start);
    var kept := Kept(rows, MessageChat, Keys(chats, LegacyChatId));
    forall k | 0 <= k < |r|
      ensures exists j :: 0 <= j < |chats| && chats[j].migrated.id == r[k].chatId
    {
      FindFirst(chats, LegacyChatId, kept[k].chatId);
      var c := Find(chats, LegacyChatId, kept[k].chatId).value;
      var j :| 0 <= j < |chats| && chats[j] == c;
    }
  }

  // ---------------------------------------------------------------------------
  // Fresh ids

  /** Ids strictly increase along a table and stay below `bound`. */
  ghost predicate Ascending(ids: seq<nat>, bound: nat) {
    (forall j, k :: 0 <= j < k < |ids| ==> ids[j] < ids[k])
    && forall k :: 0 <= k < |ids| ==> ids[k] < bound
  }

  /** Consecutive ids from `lo`. */
  ghost predicate Consecutive(ids: seq<nat>, lo: nat) {
    forall k :: 0 <= k < |ids| ==> ids[k] == lo + k
  }

  /** Appending rows with consecutive fresh ids keeps a table's ids ascending. */
  lemma {:induction false} AppendFresh(old_ids: seq<nat>, new_ids: seq<nat>, lo: nat, bound: nat)
    requires Ascending(old_ids, lo) && Consecutive(new_ids, lo) && lo + |new_ids| <= bound
    ensures Ascending(old_ids + new_ids, bound)
  {
  }

  function UserIds(us: seq<User>): (r: seq<nat>)
    ensures |r| == |us| && forall k :: 0 <= k < |us| ==> r[k] == us[k].id
  {
    seq(|us|, k requires 0 <= k < |us| => us[k].id)
  }

  function ChatIds(cs: seq<Chat>): (r: seq<nat>)
    ensures |r| == |cs| && forall k :: 0 <= k < |cs| ==> r[k] == cs[k].id
  {
    seq(|cs|, k requires 0 <= k < |cs| => cs[k].id)
  }

  function MessageIds(ms: seq<Message>): (r: seq<nat>)
    ensures |r| == |ms| && forall k :: 0 <= k < |ms| ==> r[k] == ms[k].id
  {
    seq(|ms|, k requires 0 <= k < |ms| => ms[k].id)
  }

  function CompanyIds(cs: seq<Company>): (r: seq<nat>)
    ensures |r| == |cs| && forall k :: 0 <= k < |cs| ==> r[k] == cs[k].id
  {
    seq(|cs|, k requires 0 <= k < |cs| => cs[k].id)
  }

  /** Migrated message `k` gets id `start + k`. */
  lemma {:induction false} MigratedIds(rows: seq<LegacyMessage>, chats: seq<ChatMapping>, start: nat)
    ensures forall k :: 0 <= k < |MigratedMessages(rows, chats, start)| ==> MigratedMessages(rows, chats, start)[k].id == start + k
    decreases |rows|
  {
    if rows != [] {
      MigratedIds(rows[..|rows| - 1], chats, start);
    }
  }

  /** Converted message `k` gets id `start + k`. */
  lemma {:induction false} ConvertedIds(ds: seq<DeprecatedMessage>, chats: seq<ChatMapping>, start: nat, stringify: Json -> string)
    ensures forall k :: 0 <= k < |ConvertedMessages(ds, chats, start, stringify)| ==>
      ConvertedMessages(ds, chats, start, stringify)[k].id == start + k
    decreases |ds|
  {
    if ds != [] {
      ConvertedIds(ds[..|ds| - 1], chats, start, stringify);
    }
  }

  /** The current messages and then the converted deprecated ones take
      consecutive ids from `lo`. */
  lemma {:induction false} MessageIdsFrom(rows: seq<LegacyMessage>, ds: seq<DeprecatedMessage>, chats: seq<ChatMapping>,
                                          lo: nat, stringify: Json -> string)
    ensures Consecutive(MessageIds(MigratedMessages(rows, chats, lo)
                                   + ConvertedMessages(ds, chats, lo + |MigratedMessages(rows, chats, lo)|, stringify)), lo)
  {
    var current := MigratedMessages(rows, chats, lo);
    var older := ConvertedMessages(ds, chats, lo + |current|, stringify);
    MigratedIds(rows, chats, lo);
    ConvertedIds(ds, chats, lo + |current|, stringify);
    var all := current + older;
    forall k | 0 <= k < |all|
      ensures MessageIds(all)[k] == lo + k
    {
      if k >= |current| {
        assert all[k] == older[k - |current|];
      }
    }
  }

  /** The new rows of each table take consecutive ids, one table after the
      other, from `start` up to `start + Drawn(o)`. */
  lemma {:induction false} ConsecutiveIds(legacyUsers: seq<LegacyUser>, legacyChats: seq<LegacyChat>, legacyMessages: seq<LegacyMessage>,
                       deprecated: Option<seq<DeprecatedMessage>>, stringify: Json -> string, start: nat, o: Outcome)
    requires o == Migrate(legacyUsers, legacyChats, legacyMessages, deprecated, stringify, start)
    ensures o.company.id == start
    ensures Consecutive(UserIds(NewUsers(o.users)), start + 1)
    ensures Consecutive(ChatIds(NewChats(o.chats)), start + 1 + |o.users|)
    ensures Consecutive(MessageIds(o.messages + o.deprecated), start + 1 + |o.users| + |o.chats|)
  {
    UserIdsFrom(legacyUsers, start, start + 1);
    ChatIdsFrom(legacyChats, o.users, start, start + 1 + |o.users|);
    MessageIdsFrom(legacyMessages, DeprecatedRows(deprecated), o.chats, start + 1 + |o.users| + |o.chats|, stringify);
  }

  /** The migrated users take consecutive ids from `lo`. */
  lemma {:induction false} UserIdsFrom(legacy: seq<LegacyUser>, companyId: nat, lo: nat)
    ensures Consecutive(UserIds(NewUsers(UserMappings(legacy, companyId, lo))), lo)
  {
    UserMappingsMeaning(legacy, companyId, lo);
  }

  /** The migrated chats take consecutive ids from `lo`. */
  lemma {:induction false} ChatIdsFrom(chats: seq<LegacyChat>, users: seq<UserMapping>, companyId: nat, lo: nat)
    ensures Consecutive(ChatIds(NewChats(ChatMappings(chats, users, companyId, lo))), lo)
  {
    ChatMappingsMeaning(chats, users, companyId, lo);
  }

  /** Tables whose ids were ascending below `start` stay ascending below
      `start + Drawn(o)` once the migration's rows are appended: every id the
      migration draws is fresh. */
  lemma {:induction false} FreshIds(legacyUsers: seq<LegacyUser>, legacyChats: seq<LegacyChat>, legacyMessages: seq<LegacyMessage>,
                 deprecated: Option<seq<DeprecatedMessage>>, stringify: Json -> string, start: nat, o: Outcome,
                 companies: seq<Company>, users: seq<User>, chats: seq<Chat>, messages: seq<Message>)
    requires o == Migrate(legacyUsers, legacyChats, legacyMessages, deprecated, stringify, start)
    requires Ascending(CompanyIds(companies), start) && Ascending(UserIds(users), start)
    requires Ascending(ChatIds(chats), start) && Ascending(MessageIds(messages), start)
    ensures Ascending(CompanyIds(companies + [o.company]), start + Drawn(o))
    ensures Ascending(UserIds(users + NewUsers(o.users)), start + Drawn(o))
    ensures Ascending(ChatIds(chats + NewChats(o.chats)), start + Drawn(o))
    ensures Ascending(MessageIds(messages + o.messages + o.deprecated), start + Drawn(o))
  {
    ConsecutiveIds(legacyUsers, legacyChats, legacyMessages, deprecated, stringify, start, o);
    AppendOutcome(start, o, companies, users, chats, messages);
  }

  /** `FreshIds` for any outcome whose ids are drawn consecutively from `start`. */
  lemma {:induction false} AppendOutcome(start: nat, o: Outcome,
                                         companies: seq<Company>, users: seq<User>, chats: seq<Chat>, messages: seq<Message>)
    requires o.company.id == start
    requires Consecutive(UserIds(NewUsers(o.users)), start + 1)
    requires Consecutive(ChatIds(NewChats(o.chats)), start + 1 + |o.users|)
    requires Consecutive(MessageIds(o.messages + o.deprecated), start + 1 + |o.users| + |o.chats|)
    requires Ascending(CompanyIds(companies), start) && Ascending(UserIds(users), start)
    requires Ascending(ChatIds(chats), start) && Ascending(MessageIds(messages), start)
    ensures Ascending(CompanyIds(companies + [o.company]), start + Drawn(o))
    ensures Ascending(UserIds(users + NewUsers(o.users)), start + Drawn(o))
    ensures Ascending(ChatIds(chats + NewChats(o.chats)), start + Drawn(o))
    ensures Ascending(MessageIds(messages + o.messages + o.deprecated), start + Drawn(o))
  {
    var bound := start + Drawn(o);
    AppendFresh(CompanyIds(companies), CompanyIds([o.company]), start, bound);
    assert CompanyIds(companies + [o.company]) == CompanyIds(companies) + CompanyIds([o.company]);
    AppendFresh(UserIds(users), UserIds(NewUsers(o.users)), start + 1, bound);
    assert UserIds(users + NewUsers(o.users)) == UserIds(users) + UserIds(NewUsers(o.users));
    AppendFresh(ChatIds(chats), ChatIds(NewChats(o.chats)), start + 1 + |o.users|, bound);
    assert ChatIds(chats + NewChats(o.chats)) == ChatIds(chats) + ChatIds(NewChats(o.chats));
    AppendFresh(MessageIds(messages), MessageIds(o.messages + o.deprecated), start + 1 + |o.users| + |o.chats|, bound);
    assert messages + o.messages + o.deprecated == messages + (o.messages + o.deprecated);
    assert MessageIds(messages + (o.messages + o.deprecated)) == MessageIds(messages) + MessageIds(o.messages + o.deprecated);
  }

  // ---------------------------------------------------------------------------
  // The database

  class Database {
    /** The legacy tables read by the migration. */
    var legacyUsers: seq<LegacyUser>
    var legacyChats: seq<LegacyChat>
    var legacyMessages: seq<LegacyMessage>
    /** The deprecated `Message` table, or `None` when selecting from it throws. */
    var deprecatedMessages: Option<seq<DeprecatedMessage>>
    /** The multi-tenant tables the migration inserts into. */
    var companies: seq<Company>
    var users: seq<User>
    var chats: seq<Chat>
    var messages: seq<Message>
    /** The id the next inserted row receives. */
    var nextId: nat

    /** Every table's ids are ascending and below `nextId`, so an id drawn from
        `nextId` is fresh. */
    ghost predicate Valid()
      reads this
    {
      Ascending(CompanyIds(companies), nextId) && Ascending(UserIds(users), nextId)
      && Ascending(ChatIds(chats), nextId) && Ascending(MessageIds(messages), nextId)
    }

    constructor(legacyUsers: seq<LegacyUser>, legacyChats: seq<LegacyChat>, legacyMessages: seq<LegacyMessage>,
                deprecatedMessages: Option<seq<DeprecatedMessage>>)
      ensures Valid()
      ensures this.legacyUsers == legacyUsers && this.legacyChats == legacyChats
      ensures this.legacyMessages == legacyMessages && this.deprecatedMessages == deprecatedMessages
      ensures companies == [] && users == [] && chats == [] && messages == [] && nextId == 0
    {
      this.legacyUsers := legacyUsers;
      this.legacyChats := legacyChats;
      this.legacyMessages := legacyMessages;
      this.deprecatedMessages := deprecatedMessages;
      companies := [];
      users := [];
      chats := [];
      messages := [];
      nextId := 0;
    }

    /** Step 2: insert the default company and return it. */
    method InsertCompany() returns (company: Company)
      modifies this`companies, this`nextId
      ensures company == DefaultCompany(old(nextId))
      ensures companies == old(companies) + [company] && nextId == old(nextId) + 1
    {
      company := DefaultCompany(nextId);
      companies := companies + [company];
      nextId := nextId + 1;
    }

    /** Step 3: insert one new user per legacy user, collecting the mappings. */
    method MigrateUsers(existing: seq<LegacyUser>, companyId: nat) returns (migrated: seq<UserMapping>)
      modifies this`users, this`nextId
      ensures migrated == UserMappings(existing, companyId, old(nextId))
      ensures users == old(users) + NewUsers(migrated) && nextId == old(nextId) + |migrated|
    {
      migrated := [];
      var i := 0;
      while i < |existing|
        invariant 0 <= i <= |existing|
        invariant migrated == UserMappings(existing[..i], companyId, old(nextId))
        invariant users == old(users) + NewUsers(migrated) && nextId == old(nextId) + i
      {
        var legacy := existing[i];
        var user := MigratedUser(legacy, companyId, nextId);
        users := users + [user];
        nextId := nextId + 1;
        migrated := migrated + [UserMapping(legacy, user)];
        i := i + 1;
        assert migrated == UserMappings(existing[..i], companyId, old(nextId));
        assert NewUsers(migrated) == NewUsers(migrated[..i - 1]) + [user];
      }
      assert existing[..i] == existing;
    }

    /** Step 4: insert a new chat for every legacy chat whose owner was migrated,
        collecting the mappings; the others are skipped. */
    method MigrateChats(existing: seq<LegacyChat>, companyId: nat, migratedUsers: seq<UserMapping>) returns (migrated: seq<ChatMapping>)
      modifies this`chats, this`nextId
      ensures migrated == ChatMappings(existing, migratedUsers, companyId, old(nextId))
      ensures chats == old(chats) + NewChats(migrated) && nextId == old(nextId) + |migrated|
    {
      migrated := [];
      var i := 0;
      while i < |existing|
        invariant 0 <= i <= |existing|
        invariant migrated == ChatMappings(existing[..i], migratedUsers, companyId, old(nextId))
        invariant chats == old(chats) + NewChats(migrated) && nextId == old(nextId) + |migrated|
      {
        var legacy := existing[i];
        assert existing[..i + 1][..i] == existing[..i];
        var mapping := Find(migratedUsers, LegacyUserId, legacy.userId);
        if mapping.Some? {
          var chat := MigratedChat(legacy, mapping.value.migrated, companyId, nextId);
          chats := chats + [chat];
          nextId := nextId + 1;
          migrated := migrated + [ChatMapping(legacy, chat)];
          assert NewChats(migrated) == NewChats(migrated[..|migrated| - 1]) + [chat];
        }
        i := i + 1;
      }
      assert existing[..i] == existing;
    }

    /** Step 5: insert a new message for every row whose chat was migrated, into
        the mapped new chat; the others are skipped. */
    method MigrateMessages(rows: seq<LegacyMessage>, migratedChats: seq<ChatMapping>)
      modifies this`messages, this`nextId
      ensures messages == old(messages) + MigratedMessages(rows, migratedChats, old(nextId))
      ensures nextId == old(nextId) + |MigratedMessages(rows, migratedChats, old(nextId))|
    {
      var i := 0;
      while i < |rows|
        invariant 0 <= i <= |rows|
        invariant messages == old(messages) + MigratedMessages(rows[..i], migratedChats, old(nextId))
        invariant nextId == old(nextId) + |MigratedMessages(rows[..i], migratedChats, old(nextId))|
      {
        var legacy := rows[i];
        assert rows[..i + 1][..i] == rows[..i];
        var mapping := Find(migratedChats, LegacyChatId, legacy.chatId);
        if mapping.Some? {
          messages := messages + [MigratedMessage(legacy, mapping.value.migrated, nextId)];
          nextId := nextId + 1;
        }
        i := i + 1;
      }
      assert rows[..i] == rows;
    }

    /** The deprecated messages, when their table can be read: each becomes a
        message of one text part and no attachments in the mapped new chat. */
    method MigrateDeprecated(table: Option<seq<DeprecatedMessage>>, migratedChats: seq<ChatMapping>, stringify: Json -> string)
      modifies this`messages, this`nextId
      ensures messages == old(messages) + ConvertedMessages(DeprecatedRows(table), migratedChats, old(nextId), stringify)
      ensures nextId == old(nextId) + |ConvertedMessages(DeprecatedRows(table), migratedChats, old(nextId), stringify)|
    {
      if table.Some? {
        ConvertMessages(table.value, migratedChats, stringify);
      }
    }

    /** The loop over the deprecated rows. */
    method ConvertMessages(table: seq<DeprecatedMessage>, migratedChats: seq<ChatMapping>, stringify: Json -> string)
      modifies this`messages, this`nextId
      ensures messages == old(messages) + ConvertedMessages(table, migratedChats, old(nextId), stringify)
      ensures nextId == old(nextId) + |ConvertedMessages(table, migratedChats, old(nextId), stringify)|
    {
      var i := 0;
      while i < |table|
        invariant 0 <= i <= |table|
        invariant messages == old(messages) + ConvertedMessages(table[..i], migratedChats, old(nextId), stringify)
        invariant nextId == old(nextId) + |ConvertedMessages(table[..i], migratedChats, old(nextId), stringify)|
      {
        var legacy := table[i];
        assert table[..i + 1][..i] == table[..i];
        var mapping := Find(migratedChats, LegacyChatId, legacy.chatId);
        if mapping.Some? {
          var parts := TextParts(legacy.content, stringify);
          messages := messages + [Message(nextId, mapping.value.migrated.id, legacy.role, parts, JArray([]), legacy.createdAt)];
          nextId := nextId + 1;
        }
        i := i + 1;
      }
      assert table[..i] == table;
    }

    /** Steps 2 to 5 in order, over the legacy tables as read: the default
        company, then the users, the chats, the current messages and the
        deprecated ones. */
    method Steps(existingUsers: seq<LegacyUser>, existingChats: seq<LegacyChat>, existingMessages: seq<LegacyMessage>,
                 deprecated: Option<seq<DeprecatedMessage>>, stringify: Json -> string)
      returns (company: Company, migratedUsers: seq<UserMapping>, migratedChats: seq<ChatMapping>)
      modifies this`companies, this`users, this`chats, this`messages, this`nextId
      ensures var o := Migrate(existingUsers, existingChats, existingMessages, deprecated, stringify, old(nextId));
        company == o.company && migratedUsers == o.users && migratedChats == o.chats
        && companies == old(companies) + [o.company] && users == old(users) + NewUsers(o.users)
        && chats == old(chats) + NewChats(o.chats) && messages == old(messages) + o.messages + o.deprecated
        && nextId == old(nextId) + Drawn(o)
    {
      ghost var start: nat := nextId;
      company := InsertCompany();
      migratedUsers := MigrateUsers(existingUsers, company.id);
      migratedChats := MigrateChats(existingChats, company.id, migratedUsers);
      ghost var messageStart: nat := nextId;
      MigrateMessages(existingMessages, migratedChats);
      ghost var current := MigratedMessages(existingMessages, migratedChats, messageStart);
      ghost var deprecatedStart: nat := nextId;
      MigrateDeprecated(deprecated, migratedChats, stringify);
      ghost var older := ConvertedMessages(DeprecatedRows(deprecated), migratedChats, deprecatedStart, stringify);
      MigrateIs(existingUsers, existingChats, existingMessages, deprecated, stringify, start,
                company, migratedUsers, migratedChats, current, older);
      StepsOutcome(Migrate(existingUsers, existingChats, existingMessages, deprecated, stringify, start),
                   start, company, migratedUsers, migratedChats, current, older,
                   old(companies), old(users), old(chats), old(messages), companies, users, chats, messages, nextId);
    }

    /** `runMigration`, steps 2 to 5: without a connection string it fails before
        touching anything; otherwise it inserts everything `Migrate` describes and
        reports the default company's id and the two counts. */
    method RunMigration(noSsl: Option<string>, url: Option<string>, stringify: Json -> string) returns (r: Result<Summary>)
      requires Valid()
      modifies this
      ensures Valid()
      ensures legacyUsers == old(legacyUsers) && legacyChats == old(legacyChats)
      ensures legacyMessages == old(legacyMessages) && deprecatedMessages == old(deprecatedMessages)
      ensures Connection(noSsl, url).None? ==>
        r == Err(NoConnection) && companies == old(companies) && users == old(users)
        && chats == old(chats) && messages == old(messages) && nextId == old(nextId)
      ensures Connection(noSsl, url).Some? ==>
        var o := Migrate(legacyUsers, legacyChats, legacyMessages, deprecatedMessages, stringify, old(nextId));
        r == Ok(Summary(true, o.company.id, |o.users|, |o.chats|))
        && companies == old(companies) + [o.company] && users == old(users) + NewUsers(o.users)
        && chats == old(chats) + NewChats(o.chats) && messages == old(messages) + o.messages + o.deprecated
        && nextId == old(nextId) + Drawn(o)
    {
      if Connection(noSsl, url).None? {
        return Err(NoConnection);
      }
      var company, migratedUsers, migratedChats := Steps(legacyUsers, legacyChats, legacyMessages, deprecatedMessages, stringify);
      r := Ok(Summary(true, company.id, |migratedUsers|, |migratedChats|));
      FreshIds(legacyUsers, legacyChats, legacyMessages, deprecatedMessages, stringify, old(nextId),
               Migrate(legacyUsers, legacyChats, legacyMessages, deprecatedMessages, stringify, old(nextId)),
               old(companies), old(users), old(chats), old(messages));
    }
  }
}
