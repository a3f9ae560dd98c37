/** The daily sign-in task of `module/blablalink/blablalink.py`: the search
    for the daily check-in task in the list of tasks the site returns, the
    decision whether to sign in, the random samples of posts that are liked
    and opened, and the time the scheduler task is delayed to. The HTTP requests are
    inputs: what each one returned is a parameter. */
module Blablalink {
  import opened Wrappers

  // ---------------------------------------------------------------- JSON values

  /** A decoded JSON value as `response.json()` returns it. An object keeps
      its members in document order, as a Python dict does. */
  datatype Json = Null | Bool(b: bool) | Num(n: real) | Str(s: string) | Arr(items: seq<Json>)
                | Obj(fields: seq<(string, Json)>)

  /** The exceptions `check_daily_status` can meet: `.get` on a value that is
      no dict, or `iter` on a value that is not iterable. */
  datatype Error = AttributeError | TypeError

  /** The value a dict holds for `key`: `json.loads` keeps the last of
      repeated members. */
  function Lookup(fields: seq<(string, Json)>, key: string): (r: Option<Json>)
    ensures r.Some? <==> exists i :: 0 <= i < |fields| && fields[i].0 == key
    ensures r.Some? ==> exists i :: 0 <= i < |fields| && fields[i] == (key, r.value)
    decreases |fields|
  {
    if fields == [] then None
    else
      match Lookup(fields[1..], key)
      case Some(v) =>
        var i :| 0 <= i < |fields[1..]| && fields[1..][i] == (key, v);
        assert fields[i + 1] == (key, v);
        Some(v)
      case None =>
        assert forall i :: 0 < i < |fields| ==> fields[i] == fields[1..][i - 1];
        if fields[0].0 == key then Some(fields[0].1) else None
  }

  /** `v.get(key, default)`; AttributeError when `v` is no dict. */
  function Get(v: Json, key: string, default: Json): (r: Result<Json, Error>)
    ensures r.Err? <==> !v.Obj?
    ensures v.Obj? && Lookup(v.fields, key).None? ==> r == Ok(default)
    ensures v.Obj? && Lookup(v.fields, key).Some? ==> r == Ok(Lookup(v.fields, key).value)
  {
    if v.Obj? then Ok(match Lookup(v.fields, key) case Some(x) => x case None => default)
    else Err(AttributeError)
  }

  /** Python truthiness: `None`, `False`, zero and empty strings, lists and
      dicts are false. */
  predicate Truthy(v: Json)
  {
    match v
    case Null => false
    case Bool(b) => b
    case Num(n) => n != 0.0
    case Str(s) => s != []
    case Arr(a) => a != []
    case Obj(f) => f != []
  }

  /** What `for x in v` visits: the items of a list, the keys of a dict and
      the characters of a string; TypeError for the other values. */
  function Elements(v: Json): (r: Result<seq<Json>, Error>)
    ensures r.Err? <==> v.Null? || v.Bool? || v.Num?
    ensures v.Arr? ==> r == Ok(v.items)
    ensures v.Obj? ==> r.Ok? && |r.value| == |v.fields| && forall i :: 0 <= i < |v.fields| ==> r.value[i] == Str(v.fields[i].0)
    ensures v.Str? ==> r.Ok? && |r.value| == |v.s| && forall i :: 0 <= i < |v.s| ==> r.value[i] == Str([v.s[i]])
  {
    match v
    case Arr(a) => Ok(a)
    case Obj(f) => Ok(seq(|f|, i requires 0 <= i < |f| => Str(f[i].0)))
    case Str(s) => Ok(seq(|s|, i requires 0 <= i < |s| => Str([s[i]])))
    case _ => Err(TypeError)
  }

  /** `next(iter(v), None)`: the first element, or None when there is none. */
  function First(v: Json): (r: Result<Option<Json>, Error>)
    ensures r.Err? <==> Elements(v).Err?
    ensures r.Ok? ==> (r.value.None? <==> Elements(v).value == [])
    ensures r.Ok? && r.value.Some? ==> r.value.value == Elements(v).value[0]
  {
    match Elements(v)
    case Err(e) => Err(e)
    case Ok(xs) => Ok(if xs == [] then None else Some(xs[0]))
  }

  // ---------------------------------------------------------------- check_daily_status

  /** The name of the daily check-in task. */
  const DailyTask: string := "每日簽到"

  /** The result of `check_daily_status`: whether the daily task was found, its
      `is_completed` value and its `task_id`, both as the site sent them. */
  datatype Status = Status(found: bool, completed: Json, taskId: Json)

  /** `(False, False, '')`. */
  const NotFound: Status := Status(false, Bool(false), Str(""))

  /** Whether one element of the list of tasks is the daily task; AttributeError
      when the element is no dict. */
  function IsDaily(task: Json): (r: Result<bool, Error>)
    ensures r.Err? <==> !task.Obj?
    ensures r == Ok(true) <==> task.Obj? && Lookup(task.fields, "task_name") == Some(Str(DailyTask))
  {
    match Get(task, "task_name", Null)
    case Err(e) => Err(e)
    case Ok(name) => Ok(name == Str(DailyTask))
  }

  /** The status the first daily task yields: the first reward's
      `is_completed` (False without a truthy first reward) and `task_id`
      with default `''`. */
  function DailyResult(task: Json): Result<Status, Error>
  {
    match Get(task, "reward_infos", Arr([]))
    case Err(e) => Err(e)
    case Ok(rewards) =>
      match First(rewards)
      case Err(e) => Err(e)
      case Ok(reward) =>
        match (if reward.Some? && Truthy(reward.value) then Get(reward.value, "is_completed", Bool(false))
               else Ok(Bool(false)))
        case Err(e) => Err(e)
        case Ok(completed) =>
          match Get(task, "task_id", Str(""))
          case Err(e) => Err(e)
          case Ok(id) => Ok(Status(true, completed, id))
  }

  /** The `for task in tasks` search with its early returns. */
  function Search(tasks: seq<Json>): Result<Status, Error>
    decreases |tasks|
  {
    if tasks == [] then Ok(NotFound)
    else
      match IsDaily(tasks[0])
      case Err(e) => Err(e)
      case Ok(true) => DailyResult(tasks[0])
      case Ok(false) => Search(tasks[1..])
  }

  /** `data.get('data', {}).get('tasks', [])` as the loop iterates it. */
  function TaskList(data: Json): Result<seq<Json>, Error>
  {
    match Get(data, "data", Obj([]))
    case Err(e) => Err(e)
    case Ok(d) =>
      match Get(d, "tasks", Arr([]))
      case Err(e) => Err(e)
      case Ok(tasks) => Elements(tasks)
  }

  /** `check_daily_status`: every exception becomes `(False, False, '')`. */
  function DailyStatus(data: Json): Status
  {
    match TaskList(data)
    case Err(_) => NotFound
    case Ok(tasks) =>
      match Search(tasks)
      case Err(_) => NotFound
      case Ok(s) => s
  }

  /** `check_daily_status` as the loop it is. */
  method CheckDailyStatus(data: Json) returns (s: Status)
    ensures s == DailyStatus(data)
  {
    var tasks := TaskList(data);
    if tasks.Err? {
      return NotFound;
    }
    var ts := tasks.value;
    var i := 0;
    assert ts[0..] == ts;
    while i < |ts|
      invariant 0 <= i <= |ts|
      invariant Search(ts) == Search(ts[i..])
    {
      assert ts[i..][0] == ts[i] && ts[i..][1..] == ts[i + 1..];
      var daily := IsDaily(ts[i]);
      if daily.Err? {
        return NotFound;
      }
      if daily.value {
        var r := DailyResult(ts[i]);
        return if r.Ok? then r.value else NotFound;
      }
      i := i + 1;
    }
    return NotFound;
  }

  /** `k` is the first daily task, and every element before it a dict. */
  predicate FirstDaily(tasks: seq<Json>, k: int)
  {
    0 <= k < |tasks| && IsDaily(tasks[k]) == Ok(true)
    && forall j :: 0 <= j < k ==> IsDaily(tasks[j]) == Ok(false)
  }

  /** The first daily task decides the search. */
  lemma {:induction false} SearchFinds(tasks: seq<Json>, k: int)
    requires FirstDaily(tasks, k)
    ensures Search(tasks) == DailyResult(tasks[k])
    decreases k
  {
    if k > 0 {
      var rest := tasks[1..];
      assert forall j :: 0 <= j < k - 1 ==> rest[j] == tasks[j + 1];
      assert rest[k - 1] == tasks[k];
      assert IsDaily(tasks[0]) == Ok(false);
      SearchFinds(rest, k - 1);
    }
  }

  /** A search that finds something found the first daily task. */
  lemma {:induction false} SearchFound(tasks: seq<Json>)
    requires Search(tasks).Ok? && Search(tasks).value.found
    ensures exists k :: FirstDaily(tasks, k) && Search(tasks) == DailyResult(tasks[k])
    decreases |tasks|
  {
    assert tasks != [];
    if IsDaily(tasks[0]) == Ok(false) {
      var rest := tasks[1..];
      SearchFound(rest);
      var k :| FirstDaily(rest, k) && Search(rest) == DailyResult(rest[k]);
      assert forall j :: 0 <= j < k + 1 ==> tasks[j] == if j == 0 then tasks[0] else rest[j - 1];
      assert FirstDaily(tasks, k + 1);
    } else {
      assert FirstDaily(tasks, 0);
    }
  }

  /** A search that does not find the daily task gives exactly `(False, False, '')`. */
  lemma {:induction false} SearchMissIsNotFound(tasks: seq<Json>)
    requires Search(tasks).Ok? && !Search(tasks).value.found
    ensures Search(tasks).value == NotFound
    decreases |tasks|
  {
    if tasks != [] {
      if IsDaily(tasks[0]) == Ok(false) {
        SearchMissIsNotFound(tasks[1..]);
      }
    }
  }

  /** The daily task is found exactly when the list of tasks is a list whose first
      daily task comes after dicts only and reads without an exception; its
      status is then that task's. */
  lemma FoundIff(data: Json)
    ensures DailyStatus(data).found <==>
              TaskList(data).Ok? && exists k :: FirstDaily(TaskList(data).value, k) && DailyResult(TaskList(data).value[k]).Ok?
    ensures TaskList(data).Ok? ==>
              forall k :: FirstDaily(TaskList(data).value, k) && DailyResult(TaskList(data).value[k]).Ok? ==>
                DailyStatus(data) == DailyResult(TaskList(data).value[k]).value
  {
    if TaskList(data).Ok? {
      var ts := TaskList(data).value;
      forall k | FirstDaily(ts, k)
        ensures Search(ts) == DailyResult(ts[k])
      {
        SearchFinds(ts, k);
      }
      if Search(ts).Ok? && Search(ts).value.found {
        SearchFound(ts);
      }
    }
  }

  /** Not finding the daily task always means `(False, False, '')`: when no task
      is named 每日簽到, when the keys are missing, and on every exception. */
  lemma NotFoundIsEmpty(data: Json)
    ensures !DailyStatus(data).found ==> DailyStatus(data) == NotFound
  {
    if TaskList(data).Ok? && Search(TaskList(data).value).Ok? && !Search(TaskList(data).value).value.found {
      SearchMissIsNotFound(TaskList(data).value);
    }
  }

  /** An object without `data`, or whose `data` has no `tasks`, has an empty
      task list. */
  lemma MissingKeysNotFound(data: Json)
    requires data.Obj?
    requires Lookup(data.fields, "data").None?
             || (Lookup(data.fields, "data").value.Obj? && Lookup(Lookup(data.fields, "data").value.fields, "tasks").None?)
    ensures TaskList(data) == Ok([]) && DailyStatus(data) == NotFound
  {
  }

  /** A task list without a daily task is searched to its end. */
  lemma {:induction false} NoDailyTaskNotFound(tasks: seq<Json>)
    requires forall j :: 0 <= j < |tasks| ==> IsDaily(tasks[j]) == Ok(false)
    ensures Search(tasks) == Ok(NotFound)
    decreases |tasks|
  {
    if tasks != [] {
      var rest := tasks[1..];
      assert forall j :: 0 <= j < |rest| ==> rest[j] == tasks[j + 1];
      NoDailyTaskNotFound(rest);
    }
  }

  /** An element that is no dict before the daily task raises
      AttributeError, which the handler turns into `(False, False, '')`. */
  lemma {:induction false} BadTaskNotFound(tasks: seq<Json>, k: int)
    requires 0 <= k < |tasks| && !tasks[k].Obj?
    requires forall j :: 0 <= j < k ==> IsDaily(tasks[j]) == Ok(false)
    ensures Search(tasks) == Err(AttributeError)
    decreases k
  {
    if k > 0 {
      var rest := tasks[1..];
      assert forall j :: 0 <= j < k - 1 ==> rest[j] == tasks[j + 1];
      assert rest[k - 1] == tasks[k];
      assert IsDaily(tasks[0]) == Ok(false);
      BadTaskNotFound(rest, k - 1);
    }
  }

  /** The fields of the daily task: `task_id` defaults to `''`; an empty or
      missing `reward_infos` leaves `completed` False; otherwise `completed`
      is the first reward's `is_completed`, False when it has none. */
  lemma DailyFields(task: Json)
    requires task.Obj?
    ensures var r := DailyResult(task);
            var id := Lookup(task.fields, "task_id");
            r.Ok? ==> r.value.found && r.value.taskId == (if id.Some? then id.value else Str(""))
    ensures var rewards := Lookup(task.fields, "reward_infos");
            rewards.None? || rewards == Some(Arr([])) ==> DailyResult(task).Ok? && DailyResult(task).value.completed == Bool(false)
    ensures var rewards := Lookup(task.fields, "reward_infos");
            rewards.Some? && rewards.value.Arr? && rewards.value.items != [] && rewards.value.items[0].Obj?
            && rewards.value.items[0].fields != [] ==>
              var first := rewards.value.items[0];
              DailyResult(task).Ok?
              && DailyResult(task).value.completed
                 == (if Lookup(first.fields, "is_completed").Some? then Lookup(first.fields, "is_completed").value
                     else Bool(false))
  {
  }

  // ---------------------------------------------------------------- post samples

  /** `random.sample(..., k)` on a list of length `n`, as the positions it
      picks: `k` different positions of the list. */
  predicate IsSample(picks: seq<nat>, n: nat, k: nat)
  {
    |picks| == k && (forall i :: 0 <= i < k ==> picks[i] < n)
    && forall i, j :: 0 <= i < j < k ==> picks[i] != picks[j]
  }

  function Min(a: int, b: int): int
  {
    if a <= b then a else b
  }

  /** The posts at the picked positions, in the order picked. */
  function Sample(posts: seq<string>, picks: seq<nat>): (r: seq<string>)
    requires forall i :: 0 <= i < |picks| ==> picks[i] < |posts|
    ensures |r| == |picks|
    ensures forall i :: 0 <= i < |picks| ==> r[i] == posts[picks[i]]
  {
    seq(|picks|, i requires 0 <= i < |picks| => posts[picks[i]])
  }

  lemma SampleSplit(posts: seq<string>, a: seq<nat>, b: seq<nat>)
    requires forall i :: 0 <= i < |a + b| ==> (a + b)[i] < |posts|
    ensures forall i :: 0 <= i < |a| ==> a[i] < |posts|
    ensures forall i :: 0 <= i < |b| ==> b[i] < |posts|
    ensures Sample(posts, a + b) == Sample(posts, a) + Sample(posts, b)
  {
    assert forall i :: 0 <= i < |a| ==> a[i] == (a + b)[i];
    assert forall i :: 0 <= i < |b| ==> b[i] == (a + b)[|a| + i];
  }

  /** Taking one pick out of a sample takes its post out of the multiset. */
  lemma SampleRemove(posts: seq<string>, picks: seq<nat>, p: nat)
    requires forall i :: 0 <= i < |picks| ==> picks[i] < |posts|
    requires p < |picks|
    ensures var rest := picks[..p] + picks[p + 1..];
            (forall i :: 0 <= i < |rest| ==> rest[i] < |posts|)
            && multiset(Sample(posts, picks)) == multiset(Sample(posts, rest)) + multiset{posts[picks[p]]}
  {
    var a, b := picks[..p], picks[p + 1..];
    assert picks == (a + [picks[p]]) + b;
    SampleSplit(posts, a + [picks[p]], b);
    SampleSplit(posts, a, [picks[p]]);
    SampleSplit(posts, a, b);
    assert Sample(posts, [picks[p]]) == [posts[picks[p]]];
  }

  /** Picks below `m` see the same posts in the first `m` of the list. */
  lemma SamplePrefix(posts: seq<string>, picks: seq<nat>, m: nat)
    requires m <= |posts| && forall i :: 0 <= i < |picks| ==> picks[i] < m
    ensures Sample(posts[..m], picks) == Sample(posts, picks)
  {
  }

  /** A sample takes each post of the list at most as often as the list
      holds it: its positions are different. */
  lemma {:induction false} SampleSubMultiset(posts: seq<string>, picks: seq<nat>)
    requires IsSample(picks, |posts|, |picks|)
    ensures multiset(Sample(posts, picks)) <= multiset(posts)
    decreases |posts|
  {
    if picks != [] {
      assert picks[0] < |posts|;
      var m := |posts| - 1;
      assert posts == posts[..m] + [posts[m]];
      if p :| 0 <= p < |picks| && picks[p] == m {
        var rest := picks[..p] + picks[p + 1..];
        assert forall i :: 0 <= i < |rest| ==> rest[i] == if i < p then picks[i] else picks[i + 1];
        SampleRemove(posts, picks, p);
        SamplePrefix(posts, rest, m);
        SampleSubMultiset(posts[..m], rest);
      } else {
        SamplePrefix(posts, picks, m);
        SampleSubMultiset(posts[..m], picks);
      }
    }
  }

  /** A sequence holds at most as many different values as it is long. */
  lemma {:induction false} DistinctAtMost(s: seq<string>)
    ensures |set x | x in s| <= |s|
    decreases |s|
  {
    if s != [] {
      var init := s[..|s| - 1];
      DistinctAtMost(init);
      assert s == init + [s[|s| - 1]];
      assert (set x | x in s) == (set x | x in init) + {s[|s| - 1]};
    }
  }

  /** The sample-size bounds: `min(k, n)` posts of the list, at most that
      many different ones, none taken more often than the list holds it. */
  lemma SampleBounds(posts: seq<string>, picks: seq<nat>, k: nat)
    requires IsSample(picks, |posts|, Min(k, |posts|))
    ensures var s := Sample(posts, picks);
            |s| == Min(k, |posts|) && |set x | x in s| <= Min(k, |posts|)
            && (forall x :: x in s ==> x in posts) && multiset(s) <= multiset(posts)
  {
    var s := Sample(posts, picks);
    DistinctAtMost(s);
    SampleSubMultiset(posts, picks);
    forall x | x in s
      ensures x in posts
    {
      assert x in multiset(s);
    }
  }

  /** `like_random_posts` (`open_random_posts` with `k` = 3): nothing when
      the list is empty, otherwise one request for each sampled post, in
      the order sampled. */
  method VisitRandomPosts(posts: seq<string>, picks: seq<nat>, k: nat) returns (visited: seq<string>)
    requires IsSample(picks, |posts|, Min(k, |posts|))
    ensures visited == Sample(posts, picks)
  {
    if posts == [] {
      return [];
    }
    visited := [];
    var i := 0;
    while i < |picks|
      invariant 0 <= i <= |picks|
      invariant visited == Sample(posts, picks[..i])
    {
      visited := visited + [posts[picks[i]]];
      i := i + 1;
    }
    assert picks[..i] == picks;
  }

  // ---------------------------------------------------------------- run

  /** A naive local `datetime`; days are counted from any fixed date. */
  datatype Moment = Moment(day: int, hour: int, minute: int, second: int, micro: int)

  predicate ValidMoment(m: Moment)
  {
    0 <= m.hour < 24 && 0 <= m.minute < 60 && 0 <= m.second < 60 && 0 <= m.micro < 1000000
  }

  /** Chronological order of two moments. */
  predicate Later(a: Moment, b: Moment)
  {
    a.day > b.day
    || (a.day == b.day
        && (a.hour > b.hour
            || (a.hour == b.hour
                && (a.minute > b.minute
                    || (a.minute == b.minute
                        && (a.second > b.second || (a.second == b.second && a.micro > b.micro)))))))
  }

  /** `local_now.replace(hour=8, minute=0, second=0, microsecond=0)`. */
  function EightToday(now: Moment): Moment
  {
    Moment(now.day, 8, 0, 0, 0)
  }

  /** The delay after the sign-in flow: the next day at 08:`minute`, the
      microseconds of `now` kept, since `replace` does not reset them. */
  function NextDayTarget(now: Moment, minute: int): (t: Moment)
    requires ValidMoment(now) && 5 <= minute <= 30
    ensures ValidMoment(t) && Later(t, now)
    ensures t.day == now.day + 1 && t.hour == 8 && 5 <= t.minute <= 30 && t.second == 0
  {
    Moment(now.day + 1, 8, minute, 0, now.micro)
  }

  /** The delay before 08:00: today at 08:`minute`. */
  function TodayTarget(now: Moment, minute: int): (t: Moment)
    requires ValidMoment(now) && !Later(now, EightToday(now)) && 5 <= minute <= 30
    ensures ValidMoment(t) && Later(t, now)
    ensures t.day == now.day && t.hour == 8 && 5 <= t.minute <= 30 && t.second == 0 && t.micro == 0
  {
    Moment(now.day, 8, minute, 0, 0)
  }

  // ------------------------------------------------------ post_comment

  /** The parameters `post_comment` reads from its `BlablalinkComment`
      option (`Null` when the option is absent). An unset option or a
      missing uuid makes it return early: None. Both uuids set: the pair
      it posts the comment under. An option that is set but is no dict
      makes `.get` raise AttributeError, outside any `try`. */
  function CommentParams(config: Json): (r: Result<Option<(Json, Json)>, Error>)
    ensures r.Err? <==> Truthy(config) && !config.Obj?
    ensures r.Ok? && r.value.Some? ==>
              Get(config, "post_uuid", Null) == Ok(r.value.value.0) && Truthy(r.value.value.0)
              && Get(config, "comment_uuid", Null) == Ok(r.value.value.1) && Truthy(r.value.value.1)
    ensures (Truthy(config) && config.Obj? && Truthy(Get(config, "post_uuid", Null).value)
             && Truthy(Get(config, "comment_uuid", Null).value))
            ==> r.Ok? && r.value.Some?
  {
    if !Truthy(config) then Ok(None)
    else
      match (Get(config, "post_uuid", Null), Get(config, "comment_uuid", Null))
      case (Ok(p), Ok(c)) => if Truthy(p) && Truthy(c) then Ok(Some((p, c))) else Ok(None)
      case _ => Err(AttributeError)
  }

  /** A `BlablalinkComment` option that is a non-empty string, not a dict,
      makes `post_comment` raise. */
  lemma StringCommentRaises(s: string)
    requires s != []
    ensures CommentParams(Str(s)) == Err(AttributeError)
  {
  }

  /** What the network returned to one run: the two post lists, whether
      `_get_random_emoji` found an emoji, the data of the list of tasks
      (`{}` when fetching failed), and whether the check-in request
      answered `ok`. */
  datatype Replies = Replies(likePosts: seq<string>, openPosts: seq<string>, emojiFound: bool, tasks: Json,
                             signedIn: bool)

  /** The random choices of one run: the two samples and `randint(5, 30)`. */
  datatype Choices = Choices(likePicks: seq<nat>, openPicks: seq<nat>, minute: int)

  predicate ValidChoices(r: Replies, c: Choices)
  {
    IsSample(c.likePicks, |r.likePosts|, Min(5, |r.likePosts|))
    && IsSample(c.openPicks, |r.openPosts|, Min(3, |r.openPosts|))
    && 5 <= c.minute <= 30
  }

  /** What one run did: the posts liked and opened, the uuids the comment
      was posted under, the `task_id` sent to the check-in request, whether
      the points were read, and the time passed to `task_delay`, if it was
      called. */
  datatype Outcome = Outcome(liked: seq<string>, viewed: seq<string>, commented: Option<(Json, Json)>,
                             signIn: Option<Json>, pointsRead: bool, delay: Option<Moment>)

  /** Whether the check-in request is sent: tasks were fetched, the
      daily task was found, and it is not completed. */
  predicate SignsIn(tasks: Json)
  {
    Truthy(tasks) && DailyStatus(tasks).found && !Truthy(DailyStatus(tasks).completed)
  }

  /** `run`. Before 08:00 it only delays the scheduler task to today's 08:05-08:30.
      After it, it likes and opens sampled posts and posts the comment. An
      AttributeError from `post_comment` is caught by the handler on line
      344: the tasks are not fetched and there is no sign-in, but the delay
      is still set. Otherwise it signs in when `SignsIn`, reads the points
      after a successful check-in, and delays the scheduler task to the
      next day's 08:05-08:30; the returns on an empty task list and on a
      missing daily task are inside the `try`, so they skip the delay.
      `commentConfig` is the `BlablalinkComment` option. */
  method Run(now: Moment, commentConfig: Json, replies: Replies, choices: Choices) returns (o: Outcome)
    requires ValidMoment(now) && ValidChoices(replies, choices)
    ensures var after := Later(now, EightToday(now));
            o.liked == (if after then Sample(replies.likePosts, choices.likePicks) else [])
            && o.viewed == (if after then Sample(replies.openPosts, choices.openPicks) else [])
    ensures o.commented.Some? <==>
              Later(now, EightToday(now)) && CommentParams(commentConfig).Ok?
              && CommentParams(commentConfig).value.Some? && replies.emojiFound
    ensures o.commented.Some? ==> CommentParams(commentConfig) == Ok(o.commented)
    ensures o.signIn.Some? <==>
              Later(now, EightToday(now)) && CommentParams(commentConfig).Ok? && SignsIn(replies.tasks)
    ensures o.signIn.Some? ==> o.signIn.value == DailyStatus(replies.tasks).taskId
    ensures o.pointsRead <==> o.signIn.Some? && replies.signedIn
    ensures !Later(now, EightToday(now)) ==> o.delay == Some(TodayTarget(now, choices.minute))
    ensures Later(now, EightToday(now)) && CommentParams(commentConfig).Err? ==>
              o.signIn == None && !o.pointsRead && o.delay == Some(NextDayTarget(now, choices.minute))
    ensures Later(now, EightToday(now)) && CommentParams(commentConfig).Ok? ==>
              o.delay == (if Truthy(replies.tasks) && DailyStatus(replies.tasks).found
                          then Some(NextDayTarget(now, choices.minute)) else None)
  {
    if !Later(now, EightToday(now)) {
      return Outcome([], [], None, None, false, Some(TodayTarget(now, choices.minute)));
    }
    var liked := VisitRandomPosts(replies.likePosts, choices.likePicks, 5);
    var viewed := VisitRandomPosts(replies.openPosts, choices.openPicks, 3);
    o := Outcome(liked, viewed, None, None, false, None);
    var params := CommentParams(commentConfig);
    if params.Err? {
      o := o.(delay := Some(NextDayTarget(now, choices.minute)));
      return;
    }
    if params.value.Some? && replies.emojiFound {
      o := o.(commented := params.value);
    }
    if !Truthy(replies.tasks) {
      return;
    }
    var status := CheckDailyStatus(replies.tasks);
    if !status.found {
      return;
    }
    if !Truthy(status.completed) {
      o := o.(signIn := Some(status.taskId));
      if replies.signedIn {
        o := o.(pointsRead := true);
      }
    }
    o := o.(delay := Some(NextDayTarget(now, choices.minute)));
  }
}
