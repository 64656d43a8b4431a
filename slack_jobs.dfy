/**
  The chat-workspace crawl steps of internal/jobs/slack.go. Each job
  runs one page: it resolves the workspace's token, asks the remote API for
  one page, upserts what the page holds and either enqueues its own
  continuation or marks the resource done.

  The remote calls (UsersList, ChannelsList, ChannelsHistory) are oracle
  parameters taking the token and the cursor; None stands for a failed call.
  `accepted(i)` says whether the store accepts the write of the page's i-th
  item. `tsOf` is slack.Timestamp, the conversion of a message's timestamp
  text to a number.
*/
module SlackJobs {
  import opened Wrappers
  import opened Strings
  import opened Backend
  import opened Auth

  datatype Profile = Profile(firstName: string, lastName: string, email: string)

  datatype Member = Member(
    id: string,
    teamId: string,
    name: string,
    realName: string,
    profile: Profile,
    deleted: bool,
    isBot: bool)

  datatype SlackChannel = SlackChannel(
    id: string,
    name: string,
    topic: string,
    purpose: string,
    isArchived: bool,
    isPrivate: bool)

  datatype UsersPage = UsersPage(members: seq<Member>, responseMetadata: map<string, string>)

  datatype ChannelsPage = ChannelsPage(channels: seq<SlackChannel>, responseMetadata: map<string, string>)

  /** One page of a channel's history, newest message first. */
  datatype HistoryPage = HistoryPage(messages: seq<Message>, hasMore: bool)

  /** responseMetadata["next_cursor"], "" when absent as for any Go map. */
  function NextCursor(meta: map<string, string>): string {
    if "next_cursor" in meta then meta["next_cursor"] else ""
  }

  /** A listed member as UpdateUser stores it: under the member's own team. */
  function UserOf(m: Member): User {
    User(m.id, m.teamId, m.name, m.realName, m.profile.firstName, m.profile.lastName,
         m.profile.email, m.deleted, m.isBot)
  }

  /** A listed channel as UpdateChannel stores it: under the job's workspace. */
  function ChannelOf(team: string, c: SlackChannel): Channel {
    Channel(c.id, team, c.name, c.topic, c.purpose, c.isArchived, c.isPrivate, false)
  }

  function UserPairs(members: seq<Member>): seq<(string, User)> {
    seq(|members|, i requires 0 <= i < |members| => (members[i].id, UserOf(members[i])))
  }

  function ChannelPairs(team: string, channels: seq<SlackChannel>): seq<(string, Channel)> {
    seq(|channels|, i requires 0 <= i < |channels| => (channels[i].id, ChannelOf(team, channels[i])))
  }

  function MessagePairs(team: string, channel: string, msgs: seq<Message>): seq<(MessageKey, Message)> {
    seq(|msgs|, i requires 0 <= i < |msgs| => (MessageKey(team, channel, msgs[i].ts), msgs[i]))
  }

  predicate DistinctMemberIds(members: seq<Member>) {
    forall i, j :: 0 <= i < j < |members| ==> members[i].id != members[j].id
  }

  predicate DistinctChannelIds(channels: seq<SlackChannel>) {
    forall i, j :: 0 <= i < j < |channels| ==> channels[i].id != channels[j].id
  }

  /**
    The length of the longest prefix of a newest-first page whose messages
    are all strictly newer than the watermark.
  */
  function NewerPrefix(msgs: seq<Message>, watermark: int, tsOf: string -> int): (k: nat)
    ensures k <= |msgs|
    ensures forall i :: 0 <= i < k ==> tsOf(msgs[i].ts) > watermark
    ensures k < |msgs| ==> tsOf(msgs[k].ts) <= watermark
  {
    if msgs == [] || tsOf(msgs[0].ts) <= watermark then 0
    else 1 + NewerPrefix(msgs[1..], watermark, tsOf)
  }

  /** The upper bound of a history request: the job's `l`, or the run's start time. */
  function UpperBound(latest: string, now: int): (ts: string)
    ensures latest != "" ==> ts == latest
    ensures latest == "" ==> ParseDecimal(ts) == Some(now)
  {
    DecimalRoundTrip(now);
    if latest == "" then Decimal(now) else latest
  }

  /** UpdateUsersJob: one page of the workspace's user list. */
  method UpdateUsersJob(st: Datastore, cache: Cache, queue: seq<Job>, id: string, cursor: string,
                        usersList: (string, string) -> Option<UsersPage>, accepted: nat -> bool)
    returns (st': Datastore, cache': Cache, queue': seq<Job>, status: Status)
    ensures cache' == CacheAfterGet(cache, st.auths, id)
    // no token: nothing written, nothing enqueued
    ensures Resolve(cache, st.auths, id).None? ==>
      st' == st && queue' == queue && status == Reported(NoSuchEntity)
    // the remote call failed: nothing written, nothing enqueued
    ensures var auth := Resolve(cache, st.auths, id);
      auth.Some? && usersList(auth.value.accessToken, cursor).None? ==>
        st' == st && queue' == queue && status == Reported(RemoteCallFailed)
    // every accepted member is upserted; a continuation iff next_cursor is set
    ensures var auth := Resolve(cache, st.auths, id);
      auth.Some? && usersList(auth.value.accessToken, cursor).Some? ==>
        var page := usersList(auth.value.accessToken, cursor).value;
        var next := NextCursor(page.responseMetadata);
        && st' == st.(users := PutAll(st.users, Accepted(UserPairs(page.members), accepted, |page.members|)))
        && queue' == queue + (if next != "" then [UsersJob(id, next)] else [])
        && status == Done
  {
    var token;
    token, cache' := GetAuthToken(cache, st.auths, id);
    if token.Err? {
      return st, cache', queue, Reported(token.error);
    }
    var response := usersList(token.value, cursor);
    if response.None? {
      return st, cache', queue, Reported(RemoteCallFailed);
    }
    var members := response.value.members;
    ghost var pairs := UserPairs(members);
    var users := st.users;
    for i := 0 to |members|
      invariant users == PutAll(st.users, Accepted(pairs, accepted, i))
    {
      AcceptedStep(st.users, pairs, accepted, i);
      if accepted(i) {
        users := users[members[i].id := UserOf(members[i])];
      }
    }
    st' := st.(users := users);
    var next := NextCursor(response.value.responseMetadata);
    queue' := queue;
    if next != "" {
      queue' := queue' + [UsersJob(id, next)];
    }
    status := Done;
  }

  /** UpdateChannelsJob: one page of the workspace's channel list. */
  method UpdateChannelsJob(st: Datastore, cache: Cache, queue: seq<Job>, id: string, cursor: string,
                           channelsList: (string, string) -> Option<ChannelsPage>, accepted: nat -> bool)
    returns (st': Datastore, cache': Cache, queue': seq<Job>, status: Status)
    ensures cache' == CacheAfterGet(cache, st.auths, id)
    ensures Resolve(cache, st.auths, id).None? ==>
      st' == st && queue' == queue && status == Reported(NoSuchEntity)
    ensures var auth := Resolve(cache, st.auths, id);
      auth.Some? && channelsList(auth.value.accessToken, cursor).None? ==>
        st' == st && queue' == queue && status == Reported(RemoteCallFailed)
    ensures var auth := Resolve(cache, st.auths, id);
      auth.Some? && channelsList(auth.value.accessToken, cursor).Some? ==>
        var page := channelsList(auth.value.accessToken, cursor).value;
        var next := NextCursor(page.responseMetadata);
        && st' == st.(channels := PutAll(st.channels, Accepted(ChannelPairs(id, page.channels), accepted, |page.channels|)))
        && queue' == queue + (if next != "" then [ChannelsJob(id, next)] else [])
        && status == Done
  {
    var token;
    token, cache' := GetAuthToken(cache, st.auths, id);
    if token.Err? {
      return st, cache', queue, Reported(token.error);
    }
    var response := channelsList(token.value, cursor);
    if response.None? {
      return st, cache', queue, Reported(RemoteCallFailed);
    }
    var listed := response.value.channels;
    ghost var pairs := ChannelPairs(id, listed);
    var channels := st.channels;
    for i := 0 to |listed|
      invariant channels == PutAll(st.channels, Accepted(pairs, accepted, i))
    {
      AcceptedStep(st.channels, pairs, accepted, i);
      if accepted(i) {
        channels := channels[listed[i].id := ChannelOf(id, listed[i])];
      }
    }
    st' := st.(channels := channels);
    var next := NextCursor(response.value.responseMetadata);
    queue' := queue;
    if next != "" {
      queue' := queue' + [ChannelsJob(id, next)];
    }
    status := Done;
  }

  /**
    What one history page does, given the watermark read before it: the
    newer prefix of the page is stored, then the run stops at the watermark,
    continues below the page's oldest message, or finishes.
  */
  ghost predicate HistoryPageEffect(st: Datastore, queue: seq<Job>, id: string, channel: string, now: int,
                                    page: HistoryPage, tsOf: string -> int, accepted: nat -> bool,
                                    st': Datastore, queue': seq<Job>, newCount: nat, status: Status)
  {
    var msgs := page.messages;
    var k := NewerPrefix(msgs, Watermark(st, id, channel), tsOf);
    var stored := st.(messages := PutAll(st.messages, Accepted(MessagePairs(id, channel, msgs), accepted, k)));
    && newCount == k
    // the watermark was reached mid-page
    && (k < |msgs| ==> st' == MarkCrawled(stored, id, channel, now) && queue' == queue && status == Done)
    // the whole page is new and there is more: continue below its oldest message
    && (k == |msgs| && page.hasMore && msgs != [] ==>
          st' == stored && queue' == queue + [MessagesJob(id, channel, msgs[|msgs| - 1].ts)] && status == Done)
    // "more" with an empty page indexes out of range
    && (k == |msgs| && page.hasMore && msgs == [] ==> st' == st && queue' == queue && status == Panicked)
    // the history is exhausted
    && (k == |msgs| && !page.hasMore ==> st' == MarkCrawled(stored, id, channel, now) && queue' == queue && status == Done)
  }

  /**
    CollectMessagesJob: one page of a channel's history, newest first, up to
    the channel's watermark. `newCount` is the source's counter `n`.
  */
  method CollectMessagesJob(st: Datastore, cache: Cache, queue: seq<Job>,
                            id: string, channel: string, latest: string, now: int,
                            channelsHistory: (string, string, string) -> Option<HistoryPage>,
                            tsOf: string -> int, accepted: nat -> bool)
    returns (st': Datastore, cache': Cache, queue': seq<Job>, newCount: nat, status: Status)
    ensures cache' == CacheAfterGet(cache, st.auths, id)
    // no token: nothing written, nothing marked, nothing enqueued
    ensures Resolve(cache, st.auths, id).None? ==>
      st' == st && queue' == queue && newCount == 0 && status == Reported(NoSuchEntity)
    // the history call, bounded by `l` or else by now, failed: likewise
    ensures var auth := Resolve(cache, st.auths, id);
      auth.Some? && channelsHistory(auth.value.accessToken, channel, UpperBound(latest, now)).None? ==>
        st' == st && queue' == queue && newCount == 0 && status == Reported(RemoteCallFailed)
    // the page that call returned is ingested
    ensures var auth := Resolve(cache, st.auths, id);
      auth.Some? && channelsHistory(auth.value.accessToken, channel, UpperBound(latest, now)).Some? ==>
        HistoryPageEffect(st, queue, id, channel, now,
                          channelsHistory(auth.value.accessToken, channel, UpperBound(latest, now)).value,
                          tsOf, accepted, st', queue', newCount, status)
    // whatever is written is newer than the watermark and belongs to this channel
    ensures forall key :: key in st'.messages && (key !in st.messages || st'.messages[key] != st.messages[key]) ==>
      key.team == id && key.channel == channel && tsOf(key.ts) > Watermark(st, id, channel)
    // a clock at or past the watermark never moves it back
    ensures now >= Watermark(st, id, channel) ==> Watermark(st', id, channel) >= Watermark(st, id, channel)
  {
    var token;
    token, cache' := GetAuthToken(cache, st.auths, id);
    if token.Err? {
      return st, cache', queue, 0, Reported(token.error);
    }
    var ts := if latest == "" then Decimal(now) else latest;
    var response := channelsHistory(token.value, channel, ts);
    if response.None? {
      return st, cache', queue, 0, Reported(RemoteCallFailed);
    }
    st', queue', newCount, status := IngestHistoryPage(st, queue, id, channel, now, response.value, tsOf, accepted);
    HistoryPageWritesOnlyNewer(st, queue, id, channel, now, response.value, tsOf, accepted,
                               st', queue', newCount, status);
    HistoryPageMarks(st, queue, id, channel, now, response.value, tsOf, accepted,
                     st', queue', newCount, status);
  }

  /** The part of CollectMessagesJob after a page has been fetched. */
  method IngestHistoryPage(st: Datastore, queue: seq<Job>, id: string, channel: string, now: int,
                           page: HistoryPage, tsOf: string -> int, accepted: nat -> bool)
    returns (st': Datastore, queue': seq<Job>, newCount: nat, status: Status)
    ensures HistoryPageEffect(st, queue, id, channel, now, page, tsOf, accepted, st', queue', newCount, status)
  {
    var oldest := Watermark(st, id, channel);
    var msgs := page.messages;
    ghost var pairs := MessagePairs(id, channel, msgs);
    var messages := st.messages;
    var n := 0;
    for i := 0 to |msgs|
      invariant n == i
      invariant forall j :: 0 <= j < i ==> tsOf(msgs[j].ts) > oldest
      invariant messages == PutAll(st.messages, Accepted(pairs, accepted, i))
    {
      if tsOf(msgs[i].ts) > oldest {
        AcceptedStep(st.messages, pairs, accepted, i);
        if accepted(i) {
          messages := messages[MessageKey(id, channel, msgs[i].ts) := msgs[i]];
        }
        n := n + 1;
      } else {
        // the last known message is reached
        assert NewerPrefix(msgs, oldest, tsOf) == i;
        st' := MarkCrawled(st.(messages := messages), id, channel, now);
        return st', queue, n, Done;
      }
    }
    assert NewerPrefix(msgs, oldest, tsOf) == |msgs|;
    if page.hasMore {
      if |msgs| == 0 {
        return st, queue, n, Panicked;
      }
      st' := st.(messages := messages);
      queue' := queue + [MessagesJob(id, channel, msgs[|msgs| - 1].ts)];
    } else {
      st' := MarkCrawled(st.(messages := messages), id, channel, now);
      queue' := queue;
    }
    newCount, status := n, Done;
  }

  /** A history page writes only messages of its own channel that are newer than the watermark. */
  lemma {:induction false} HistoryPageWritesOnlyNewer(st: Datastore, queue: seq<Job>, id: string, channel: string, now: int,
                                   page: HistoryPage, tsOf: string -> int, accepted: nat -> bool,
                                   st': Datastore, queue': seq<Job>, newCount: nat, status: Status)
    requires HistoryPageEffect(st, queue, id, channel, now, page, tsOf, accepted, st', queue', newCount, status)
    ensures forall key :: key in st'.messages && (key !in st.messages || st'.messages[key] != st.messages[key]) ==>
      key.team == id && key.channel == channel && tsOf(key.ts) > Watermark(st, id, channel)
  {
    var msgs := page.messages;
    var k := NewerPrefix(msgs, Watermark(st, id, channel), tsOf);
    var written := PutAll(st.messages, Accepted(MessagePairs(id, channel, msgs), accepted, k));
    NewerOnly(st.messages, id, channel, msgs, accepted, k, Watermark(st, id, channel), tsOf);
    var stored := st.(messages := written);
    if k < |msgs| || !page.hasMore {
      assert st' == MarkCrawled(stored, id, channel, now);
    } else if msgs != [] {
      assert st' == stored;
    } else {
      assert st' == st;
    }
  }

  /**
    A history page marks at most its own channel crawled, and only at the
    run's start time; so with a clock at or past the watermark, the
    watermark never moves back.
  */
  lemma {:induction false} HistoryPageMarks(st: Datastore, queue: seq<Job>, id: string, channel: string, now: int,
                                            page: HistoryPage, tsOf: string -> int, accepted: nat -> bool,
                                            st': Datastore, queue': seq<Job>, newCount: nat, status: Status)
    requires HistoryPageEffect(st, queue, id, channel, now, page, tsOf, accepted, st', queue', newCount, status)
    ensures st'.crawled == st.crawled || st'.crawled == st.crawled[ChannelKey(id, channel) := now]
    ensures now >= Watermark(st, id, channel) ==> Watermark(st', id, channel) >= Watermark(st, id, channel)
  {
    var msgs := page.messages;
    var k := NewerPrefix(msgs, Watermark(st, id, channel), tsOf);
    if k < |msgs| || !page.hasMore {
      assert st'.crawled == st.crawled[ChannelKey(id, channel) := now];
    } else {
      assert st'.crawled == st.crawled;
    }
  }

  /** Storing a prefix of newer messages writes only newer messages of that channel. */
  lemma NewerOnly(m: map<MessageKey, Message>, team: string, channel: string, msgs: seq<Message>,
                  accepted: nat -> bool, k: nat, watermark: int, tsOf: string -> int)
    requires k <= |msgs|
    requires forall j :: 0 <= j < k ==> tsOf(msgs[j].ts) > watermark
    ensures var m' := PutAll(m, Accepted(MessagePairs(team, channel, msgs), accepted, k));
      forall key :: key in m' && (key !in m || m'[key] != m[key]) ==>
        key.team == team && key.channel == channel && tsOf(key.ts) > watermark
  {
    var pairs := MessagePairs(team, channel, msgs);
    var batch := Accepted(pairs, accepted, k);
    var m' := PutAll(m, batch);
    forall key | key in m' && (key !in m || m'[key] != m[key])
      ensures key.team == team && key.channel == channel && tsOf(key.ts) > watermark
    {
      if key !in KeysOf(batch) {
        PutAllElsewhere(m, batch, key);
        assert false;
      }
      AcceptedKeys(pairs, accepted, k, key);
      var j :| 0 <= j < k && accepted(j) && pairs[j].0 == key;
    }
  }

  /**
    A users page stores every accepted member under its own id, with its own
    team id; this needs the page to list each member once, as a later
    duplicate would overwrite an earlier one.
  */
  lemma UsersPageStored(users: map<string, User>, members: seq<Member>, accepted: nat -> bool)
    requires DistinctMemberIds(members)
    ensures var users' := PutAll(users, Accepted(UserPairs(members), accepted, |members|));
      forall j :: 0 <= j < |members| && accepted(j) ==>
        members[j].id in users' && users'[members[j].id] == UserOf(members[j])
        && users'[members[j].id].team == members[j].teamId
  {
    var pairs := UserPairs(members);
    forall j | 0 <= j < |members| && accepted(j)
      ensures members[j].id in PutAll(users, Accepted(pairs, accepted, |members|))
      ensures PutAll(users, Accepted(pairs, accepted, |members|))[members[j].id] == UserOf(members[j])
    {
      AcceptedStored(users, pairs, accepted, |members|, j);
    }
  }

  /** For any users page: every new user comes from an accepted member, and no other user changes. */
  lemma UsersPageFrame(users: map<string, User>, members: seq<Member>, accepted: nat -> bool)
    ensures var users' := PutAll(users, Accepted(UserPairs(members), accepted, |members|));
      && (forall k :: k in users' && k !in users ==>
            exists j :: 0 <= j < |members| && accepted(j) && members[j].id == k)
      && (forall k :: k in users && (forall j :: 0 <= j < |members| && accepted(j) ==> members[j].id != k) ==>
            users'[k] == users[k])
  {
    var pairs := UserPairs(members);
    var batch := Accepted(pairs, accepted, |members|);
    forall k | k in PutAll(users, batch) && k !in users
      ensures exists j :: 0 <= j < |members| && accepted(j) && members[j].id == k
    {
      AcceptedKeys(pairs, accepted, |members|, k);
    }
    forall k | k in users && (forall j :: 0 <= j < |members| && accepted(j) ==> members[j].id != k)
      ensures PutAll(users, batch)[k] == users[k]
    {
      AcceptedKeys(pairs, accepted, |members|, k);
      PutAllElsewhere(users, batch, k);
    }
  }

  /**
    A channels page stores every accepted channel under its id, with the
    job's workspace as team, when the page lists each channel once.
  */
  lemma ChannelsPageStored(channels: map<string, Channel>, team: string, listed: seq<SlackChannel>,
                           accepted: nat -> bool)
    requires DistinctChannelIds(listed)
    ensures var channels' := PutAll(channels, Accepted(ChannelPairs(team, listed), accepted, |listed|));
      forall j :: 0 <= j < |listed| && accepted(j) ==>
        listed[j].id in channels' && channels'[listed[j].id] == ChannelOf(team, listed[j])
        && channels'[listed[j].id].team == team
  {
    var pairs := ChannelPairs(team, listed);
    forall j | 0 <= j < |listed| && accepted(j)
      ensures listed[j].id in PutAll(channels, Accepted(pairs, accepted, |listed|))
      ensures PutAll(channels, Accepted(pairs, accepted, |listed|))[listed[j].id] == ChannelOf(team, listed[j])
    {
      AcceptedStored(channels, pairs, accepted, |listed|, j);
    }
  }

  /** For any channels page: every new channel comes from an accepted one, and no other channel changes. */
  lemma ChannelsPageFrame(channels: map<string, Channel>, team: string, listed: seq<SlackChannel>,
                          accepted: nat -> bool)
    ensures var channels' := PutAll(channels, Accepted(ChannelPairs(team, listed), accepted, |listed|));
      && (forall k :: k in channels' && k !in channels ==>
            exists j :: 0 <= j < |listed| && accepted(j) && listed[j].id == k)
      && (forall k :: k in channels && (forall j :: 0 <= j < |listed| && accepted(j) ==> listed[j].id != k) ==>
            channels'[k] == channels[k])
  {
    var pairs := ChannelPairs(team, listed);
    var batch := Accepted(pairs, accepted, |listed|);
    forall k | k in PutAll(channels, batch) && k !in channels
      ensures exists j :: 0 <= j < |listed| && accepted(j) && listed[j].id == k
    {
      AcceptedKeys(pairs, accepted, |listed|, k);
    }
    forall k | k in channels && (forall j :: 0 <= j < |listed| && accepted(j) ==> listed[j].id != k)
      ensures PutAll(channels, batch)[k] == channels[k]
    {
      AcceptedKeys(pairs, accepted, |listed|, k);
      PutAllElsewhere(channels, batch, k);
    }
  }

  /** The scenario's message timestamps, read as numbers. */
  predicate ScenarioClock(tsOf: string -> int) {
    tsOf("30") == 30 && tsOf("25") == 25 && tsOf("20") == 20 &&
    tsOf("18") == 18 && tsOf("16") == 16 && tsOf("14") == 14
  }

  /**
    Multi-page convergence: with the watermark at 15, a first page
    [30, 25, 20] with more to come is stored whole and continued from 20;
    the second page [18, 16, 14] stores 18 and 16, stops at 14 and moves
    the watermark to the second run's start time.
  */
  method MultiPageConvergence(st: Datastore, queue: seq<Job>, id: string, channel: string,
                              now1: int, now2: int, tsOf: string -> int)
    returns (st2: Datastore, queue2: seq<Job>, n1: nat, n2: nat)
    requires Watermark(st, id, channel) == 15 && ScenarioClock(tsOf)
    ensures n1 == 3 && n2 == 2
    ensures queue2 == queue + [MessagesJob(id, channel, "20")]
    ensures Watermark(st2, id, channel) == now2
    // 30, 25, 20, 18 and 16 are stored; 14 is not
    ensures st2.messages.Keys == st.messages.Keys +
      {MessageKey(id, channel, "30"), MessageKey(id, channel, "25"), MessageKey(id, channel, "20"),
       MessageKey(id, channel, "18"), MessageKey(id, channel, "16")}
  {
    var msgs1 := [Message("30", ""), Message("25", ""), Message("20", "")];
    var msgs2 := [Message("18", ""), Message("16", ""), Message("14", "")];
    var all: nat -> bool := _ => true;
    var st1, queue1, status1, status2;
    assert msgs1[1..][1..][1..] == [];
    assert NewerPrefix(msgs1, 15, tsOf) == 3;
    st1, queue1, n1, status1 := IngestHistoryPage(st, queue, id, channel, now1, HistoryPage(msgs1, true), tsOf, all);
    assert msgs2[1..][1..][0] == Message("14", "");
    assert NewerPrefix(msgs2, 15, tsOf) == 2;
    st2, queue2, n2, status2 := IngestHistoryPage(st1, queue1, id, channel, now2, HistoryPage(msgs2, true), tsOf, all);
    ScenarioStored(st.messages, id, channel, msgs1, msgs2, all);
  }

  /** The keys the two scenario pages store, with every write accepted. */
  lemma ScenarioStored(m: map<MessageKey, Message>, id: string, channel: string,
                       page1: seq<Message>, page2: seq<Message>, all: nat -> bool)
    requires page1 == [Message("30", ""), Message("25", ""), Message("20", "")]
    requires page2 == [Message("18", ""), Message("16", ""), Message("14", "")]
    requires forall i :: all(i)
    ensures var m1 := PutAll(m, Accepted(MessagePairs(id, channel, page1), all, 3));
      var m2 := PutAll(m1, Accepted(MessagePairs(id, channel, page2), all, 2));
      m2.Keys == m.Keys +
        {MessageKey(id, channel, "30"), MessageKey(id, channel, "25"), MessageKey(id, channel, "20"),
         MessageKey(id, channel, "18"), MessageKey(id, channel, "16")}
  {
    var p1 := MessagePairs(id, channel, page1);
    var p2 := MessagePairs(id, channel, page2);
    AcceptedAll(p1, all, 3);
    AcceptedAll(p2, all, 2);
    assert p1[..3] == p1;
    ScenarioKeys(id, channel, page1, page2);
  }

  /** The keys of the scenario's stored prefixes, written out. */
  lemma ScenarioKeys(id: string, channel: string, page1: seq<Message>, page2: seq<Message>)
    requires page1 == [Message("30", ""), Message("25", ""), Message("20", "")]
    requires page2 == [Message("18", ""), Message("16", ""), Message("14", "")]
    ensures KeysOf(MessagePairs(id, channel, page1)) ==
      {MessageKey(id, channel, "30"), MessageKey(id, channel, "25"), MessageKey(id, channel, "20")}
    ensures KeysOf(MessagePairs(id, channel, page2)[..2]) ==
      {MessageKey(id, channel, "18"), MessageKey(id, channel, "16")}
  {
    var p1 := MessagePairs(id, channel, page1);
    var p2 := MessagePairs(id, channel, page2);
    assert p1[..3] == p1;
    assert p1[..3][..2] == p1[..2] && p1[..2][..1] == p1[..1] && p1[..1][..0] == [];
    assert KeysOf(p1[..1]) == {p1[0].0};
    assert KeysOf(p1[..2]) == {p1[0].0, p1[1].0};
    assert p2[..2][..1] == p2[..1] && p2[..1][..0] == [];
    assert KeysOf(p2[..1]) == {p2[0].0};
  }
}
