/**
 Reading and validating the resource-limits configuration: what is accepted, what is refused, what
 an accepted configuration guarantees, and the limits each systemd unit is to carry.
 */
module LimitsConfig {
  import opened Text
  import opened Wrappers
  import opened LimitsNames

  datatype Json =
    | Null
    | Bool(b: bool)
    | Int(i: int)
    | Real(r: real)
    | Str(s: string)
    | List(items: seq<Json>)
    | Object(fields: map<string, Json>)

  /** A ValueError refuses the document; any other exception gets past the agent's handlers. */
  datatype Outcome<+T> = Accepted(value: T) | Refused | Crashed

  datatype Limits = Limits(cpu: nat, memory: nat, tasks: nat, read: nat, write: nat)

  const UNLIMITED := Limits(0, 0, 0, 0, 0)

  datatype Account = Account(uids: set<int>, limits: Limits, sessions: bool)

  datatype Config = Config(
    ioPath: string, sources: seq<string>,
    groups: map<string, Limits>, accounts: map<string, Account>, uids: map<int, string>)

  const DEFAULT_SOURCES := ["lshttpd.service", "php*-fpm.service", "cron.service", "ssh.service"]

  // ---------------------------------------------------------------- single values

  predicate Truthy(j: Json) {
    match j
    case Null => false
    case Bool(b) => b
    case Int(i) => i != 0
    case Real(r) => r != 0.0
    case Str(s) => s != []
    case List(items) => items != []
    case Object(fields) => fields != map[]
  }

  /** What Python takes for false: nothing, a false, a zero, or anything empty. */
  lemma {:induction false} TruthyIff(j: Json)
    ensures !Truthy(j) <==> j in {Null, Bool(false), Int(0), Real(0.0), Str(""), List([]), Object(map[])}
  {
  }

  /** `object.get(key)` */
  function Get(fields: map<string, Json>, key: string): Json {
    if key in fields then fields[key] else Null
  }

  /** True and 1.0 equal 1 in Python. */
  predicate IsOne(j: Json) { j == Int(1) || j == Bool(true) || j == Real(1.0) }

  predicate Letter(c: char) { 'a' <= c <= 'z' || 'A' <= c <= 'Z' }

  predicate IsPath(s: string) {
    s != [] && s[0] == '/' && forall i :: 0 <= i < |Chomp(s)| ==>
      Letter(Chomp(s)[i]) || IsDigit(Chomp(s)[i]) || Chomp(s)[i] in "/._-"
  }

  predicate IsSource(s: string) {
    var base := Chomp(s);
    && EndsWith(base, ".service")
    && 1 <= |base| - 8 <= 80
    && forall i :: 0 <= i < |base| - 8 ==> Letter(base[i]) || IsDigit(base[i]) || base[i] in "@._*-"
  }

  /** One field of a set of limits: a whole number (and not a truth value) within its bound. */
  predicate IsLimit(j: Json, bound: nat) { j.Int? && 0 <= j.i <= bound }

  function LimitField(fields: map<string, Json>, key: string): Json {
    if key in fields then fields[key] else Int(0)
  }

  function CleanLimits(raw: Json): Outcome<Limits> {
    if Truthy(raw) && !raw.Object? then Crashed
    else
      var fields := if Truthy(raw) then raw.fields else map[];
      var cpu := LimitField(fields, "cpu_percent");
      var memory := LimitField(fields, "memory_mb");
      var tasks := LimitField(fields, "process_limit");
      var read := LimitField(fields, "io_read_mbps");
      var write := LimitField(fields, "io_write_mbps");
      if && IsLimit(cpu, 100000) && IsLimit(memory, 16 * 1024 * 1024) && IsLimit(tasks, 1000000)
         && IsLimit(read, 1000000) && IsLimit(write, 1000000)
      then Accepted(Limits(cpu.i, memory.i, tasks.i, read.i, write.i))
      else Refused
  }

  // ---------------------------------------------------------------- single items

  datatype GroupItem = GroupItem(name: string, limits: Limits)
  datatype AccountItem = AccountItem(name: string, uids: seq<int>, limits: Limits, sessions: bool)

  function ReadGroup(item: Json): Outcome<GroupItem> {
    if !item.Object? then Crashed
    else
      var name := Get(item.fields, "slice");
      if !name.Str? || !IsGroupSlice(name.s) then Refused
      else match CleanLimits(Get(item.fields, "limits"))
        case Accepted(limits) => Accepted(GroupItem(name.s, limits))
        case Refused => Refused
        case Crashed => Crashed
  }

  predicate IsUid(j: Json) { j.Int? && 1000 <= j.i < 60000 }

  predicate AreUids(j: Json) {
    j.List? && forall i :: 0 <= i < |j.items| ==> IsUid(j.items[i])
  }

  /** The name and the uids, which are checked before the limits are. */
  function ReadOwner(item: Json): Outcome<(string, seq<int>)> {
    if !item.Object? then Crashed
    else
      var name := Get(item.fields, "slice");
      var uids := if Truthy(Get(item.fields, "uids")) then Get(item.fields, "uids") else List([]);
      if !name.Str? || !IsAccountSlice(name.s) then Refused
      else if !AreUids(uids) then Refused
      else Accepted((name.s, seq(|uids.items|, i requires 0 <= i < |uids.items| => uids.items[i].i)))
  }

  function Sessions(item: Json): bool
    requires item.Object?
  {
    if "sessions" in item.fields then Truthy(item.fields["sessions"]) else true
  }

  function ReadAccount(item: Json): Outcome<AccountItem> {
    match ReadOwner(item)
    case Refused => Refused
    case Crashed => Crashed
    case Accepted((name, uids)) =>
      match CleanLimits(Get(item.fields, "limits"))
      case Refused => Refused
      case Crashed => Crashed
      case Accepted(limits) => Accepted(AccountItem(name, uids, limits, Sessions(item)))
  }

  // ---------------------------------------------------------------- the whole document

  /** `data.get(key) or []`, iterated: anything truthy but a list or an empty thing breaks the loop. */
  function Items(fields: map<string, Json>, key: string): Outcome<seq<Json>> {
    var value := Get(fields, key);
    if !Truthy(value) then Accepted([])
    else if value.List? then Accepted(value.items)
    else Crashed
  }

  predicate HeaderOk(fields: map<string, Json>) {
    && IsOne(Get(fields, "version"))
    && (var path := Get(fields, "io_path"); Truthy(path) ==> path.Str? && IsPath(path.s))
    && (var sources := Get(fields, "sources");
        Truthy(sources) ==>
          && sources.List?
          && forall i :: 0 <= i < |sources.items| ==> sources.items[i].Str? && IsSource(sources.items[i].s))
  }

  ghost predicate GroupsOk(items: seq<Json>) {
    forall i :: 0 <= i < |items| ==> ReadGroup(items[i]).Accepted?
  }

  ghost predicate AllRead(items: seq<Json>) {
    forall i :: 0 <= i < |items| ==> ReadAccount(items[i]).Accepted?
  }

  ghost predicate PairwiseCompatible(items: seq<AccountItem>) {
    forall i, j {:trigger Compatible(items[i], items[j])} ::
      0 <= i < j < |items| ==> Compatible(items[i], items[j])
  }

  /** Every account reads, and no uid is listed under two different slices. */
  ghost predicate AccountsOk(items: seq<Json>) {
    AllRead(items) && PairwiseCompatible(AccountItems(items))
  }

  ghost predicate Compatible(a: AccountItem, b: AccountItem) {
    a.name == b.name || forall u :: u in a.uids ==> u !in b.uids
  }

  ghost predicate Valid(data: Json) {
    && data.Object?
    && HeaderOk(data.fields)
    && (var groups := Items(data.fields, "groups"); groups.Accepted? && GroupsOk(groups.value))
    && (var accounts := Items(data.fields, "accounts"); accounts.Accepted? && AccountsOk(accounts.value))
  }

  /** Lists where lists belong and objects where objects belong. */
  ghost predicate WellShaped(data: Json) {
    data.Object? ==>
      && Items(data.fields, "groups").Accepted?
      && Items(data.fields, "accounts").Accepted?
      && (forall item :: item in Items(data.fields, "groups").value ==> WellShapedItem(item))
      && (forall item :: item in Items(data.fields, "accounts").value ==> WellShapedItem(item))
  }

  ghost predicate WellShapedItem(item: Json) {
    item.Object? && (Truthy(Get(item.fields, "limits")) ==> Get(item.fields, "limits").Object?)
  }

  /** Limits that are there but no object. */
  predicate LimitsEscape(item: Json)
    requires item.Object?
  {
    Truthy(Get(item.fields, "limits")) && !Get(item.fields, "limits").Object?
  }

  /** No object, or an object with an accepted name and such limits. */
  predicate GroupEscapes(item: Json) {
    !item.Object? ||
    (Get(item.fields, "slice").Str? && IsGroupSlice(Get(item.fields, "slice").s) && LimitsEscape(item))
  }

  function ListedUids(item: Json): Json
    requires item.Object?
  {
    if Truthy(Get(item.fields, "uids")) then Get(item.fields, "uids") else List([])
  }

  /**
   The same of an account, whose uids are numbers that no account before it lists under another name:
   they are looked at first.
   */
  ghost predicate AccountEscapes(before: seq<AccountItem>, item: Json) {
    !item.Object? ||
    (Get(item.fields, "slice").Str? && IsAccountSlice(Get(item.fields, "slice").s) && AreUids(ListedUids(item))
     && LimitsEscape(item)
     && forall i :: 0 <= i < |before| && before[i].name != Get(item.fields, "slice").s ==>
          forall u :: u in before[i].uids ==> Int(u) !in ListedUids(item).items)
  }

  lemma {:induction false} GroupCrashesIff(item: Json)
    ensures ReadGroup(item).Crashed? <==> GroupEscapes(item)
  {
  }

  lemma {:induction false} ListedOrNot(items: seq<Json>, u: int)
    requires AreUids(List(items))
    ensures u in seq(|items|, i requires 0 <= i < |items| => items[i].i) <==> Int(u) in items
  {
    var uids := seq(|items|, i requires 0 <= i < |items| => items[i].i);
    if Int(u) in items {
      var i :| 0 <= i < |items| && items[i] == Int(u);
      assert uids[i] == u;
    }
    if u in uids {
      var i :| 0 <= i < |uids| && uids[i] == u;
      assert IsUid(items[i]) && items[i] == Int(u);
    }
  }

  lemma {:induction false} AccountCrashesIff(before: seq<AccountItem>, item: Json)
    ensures AccountCrashes(before, item) <==> AccountEscapes(before, item)
  {
    if ReadOwner(item).Accepted? {
      var owner := ReadOwner(item).value;
      forall u ensures u in owner.1 <==> Int(u) in ListedUids(item).items { ListedOrNot(ListedUids(item).items, u); }
    }
  }

  /** The first group that does not read raises an error other than a refusal. */
  ghost predicate GroupsCrash(items: seq<Json>) {
    exists k {:trigger items[k]} :: 0 <= k < |items| && GroupsOk(items[..k]) && GroupEscapes(items[k])
  }

  /** None of the uids an item lists is listed by an account before it under another slice. */
  ghost predicate FitsBehind(before: seq<AccountItem>, owner: (string, seq<int>)) {
    forall i :: 0 <= i < |before| ==> Compatible(before[i], AccountItem(owner.0, owner.1, UNLIMITED, true))
  }

  /** How the loop comes to it: as the item is, or in its limits once its uids have been taken in. */
  ghost predicate AccountCrashes(before: seq<AccountItem>, item: Json) {
    ReadOwner(item).Crashed? ||
    (ReadOwner(item).Accepted? && FitsBehind(before, ReadOwner(item).value) && item.Object? &&
     CleanLimits(Get(item.fields, "limits")).Crashed?)
  }

  ghost predicate AccountsCrash(items: seq<Json>) {
    exists k {:trigger items[k]} ::
      0 <= k < |items| && AccountsOk(items[..k]) && AccountEscapes(AccountItems(items[..k]), items[k])
  }

  /**
   The documents that escape with another error than a refusal: those whose first fault, in the order
   of reading, is a value of the wrong shape where groups, accounts, an item or its limits belong.
   */
  ghost predicate Crashes(data: Json) {
    data.Object? && HeaderOk(data.fields) &&
    var groups, accounts := Items(data.fields, "groups"), Items(data.fields, "accounts");
    groups.Crashed? || GroupsCrash(groups.value) ||
    (GroupsOk(groups.value) && (accounts.Crashed? || AccountsCrash(accounts.value)))
  }

  // ---------------------------------------------------------------- what a document says

  predicate PathChar(c: char) {
    'A' <= c <= 'Z' || 'a' <= c <= 'z' || '0' <= c <= '9' || c == '/' || c == '.' || c == '_' || c == '-'
  }

  predicate SourceChar(c: char) {
    'A' <= c <= 'Z' || 'a' <= c <= 'z' || '0' <= c <= '9' ||
    c == '@' || c == '.' || c == '_' || c == '*' || c == '-'
  }

  predicate PathLike(s: string, rest: string) {
    OnALine(s, "/" + rest) && forall i :: 0 <= i < |rest| ==> PathChar(rest[i])
  }

  predicate SourceLike(s: string, name: string) {
    OnALine(s, name + ".service") && 1 <= |name| <= 80 && forall i :: 0 <= i < |name| ==> SourceChar(name[i])
  }

  ghost predicate IsPathText(s: string) { exists rest :: PathLike(s, rest) }

  ghost predicate IsSourceText(s: string) { exists name :: SourceLike(s, name) }

  lemma {:induction false} ChompOfText(s: string, text: string)
    requires OnALine(s, text) && text != [] && text[|text| - 1] != '\n'
    ensures Chomp(s) == text
  {
    if s != text { assert s[..|s| - 1] == text; }
  }

  lemma {:induction false} PathReads(s: string, rest: string)
    requires PathLike(s, rest)
    ensures IsPath(s)
  {
    var text := "/" + rest;
    assert rest != [] ==> PathChar(rest[|rest| - 1]);
    ChompOfText(s, text);
    forall i | 0 <= i < |text| ensures Letter(text[i]) || IsDigit(text[i]) || text[i] in "/._-" {
      assert i > 0 ==> PathChar(rest[i - 1]);
    }
  }

  lemma {:induction false} PathIsLike(s: string)
    requires IsPath(s)
    ensures PathLike(s, Chomp(s)[1..])
  {
    assert Chomp(s) == "/" + Chomp(s)[1..];
    LineOfChomp(s, Chomp(s));
  }

  /** A path is a slash and letters, digits, slashes, dots, underscores and dashes. */
  lemma {:induction false} PathIff(s: string)
    ensures IsPath(s) <==> IsPathText(s)
  {
    if IsPath(s) { PathIsLike(s); }
    if IsPathText(s) {
      var rest :| PathLike(s, rest);
      PathReads(s, rest);
    }
  }

  lemma {:induction false} SourceReads(s: string, name: string, suffix: string)
    requires SourceLike(s, name) && suffix == ".service"
    ensures IsSource(s)
  {
    var text := name + suffix;
    ChompOfText(s, text);
    assert text[|text| - 8..] == suffix;
    forall i | 0 <= i < |name| ensures Letter(text[i]) || IsDigit(text[i]) || text[i] in "@._*-" {
      assert SourceChar(name[i]);
    }
  }

  lemma {:induction false} SourceIsLike(s: string, suffix: string)
    requires IsSource(s) && suffix == ".service"
    ensures SourceLike(s, Chomp(s)[..|Chomp(s)| - 8])
  {
    var text := Chomp(s);
    assert text == text[..|text| - 8] + suffix;
    LineOfChomp(s, text);
  }

  /** A source is one to eighty letters, digits and signs and `.service`. */
  lemma {:induction false} SourceIff(s: string)
    ensures IsSource(s) <==> IsSourceText(s)
  {
    if IsSource(s) { SourceIsLike(s, ".service"); }
    if IsSourceText(s) {
      var name :| SourceLike(s, name);
      SourceReads(s, name, ".service");
    }
  }

  /** The version, and the path and the sources if they are given and not empty. */
  ghost predicate HeaderReads(fields: map<string, Json>) {
    var version, path, sources := Get(fields, "version"), Get(fields, "io_path"), Get(fields, "sources");
    && (version == Int(1) || version == Bool(true) || version == Real(1.0))
    && (Truthy(path) ==> path.Str? && IsPathText(path.s))
    && (Truthy(sources) ==>
          && sources.List?
          && forall i :: 0 <= i < |sources.items| ==> sources.items[i].Str? && IsSourceText(sources.items[i].s))
  }

  lemma {:induction false} HeaderIff(fields: map<string, Json>)
    ensures HeaderOk(fields) <==> HeaderReads(fields)
  {
    var path, sources := Get(fields, "io_path"), Get(fields, "sources");
    if path.Str? { PathIff(path.s); }
    if sources.List? {
      forall i | 0 <= i < |sources.items| && sources.items[i].Str?
        ensures IsSource(sources.items[i].s) <==> IsSourceText(sources.items[i].s)
      {
        SourceIff(sources.items[i].s);
      }
    }
  }

  /** One limit as it is given: absent and then none, or a whole number within its bound. */
  predicate Gives(fields: map<string, Json>, key: string, bound: nat, value: nat) {
    value <= bound && if key in fields then fields[key] == Int(value) else value == 0
  }

  /** Each limit is given under its own key; without an object, or with an empty one, there are none. */
  predicate SaysLimits(raw: Json, l: Limits) {
    if raw.Object? then
      && Gives(raw.fields, "cpu_percent", 100000, l.cpu)
      && Gives(raw.fields, "memory_mb", 16777216, l.memory)
      && Gives(raw.fields, "process_limit", 1000000, l.tasks)
      && Gives(raw.fields, "io_read_mbps", 1000000, l.read)
      && Gives(raw.fields, "io_write_mbps", 1000000, l.write)
    else !Truthy(raw) && l == Limits(0, 0, 0, 0, 0)
  }

  lemma {:induction false} CleanLimitsIff(raw: Json, l: Limits)
    ensures CleanLimits(raw) == Accepted(l) <==> SaysLimits(raw, l)
  {
  }

  ghost predicate LimitsRead(item: Json)
    requires item.Object?
  {
    exists l :: SaysLimits(Get(item.fields, "limits"), l)
  }

  lemma {:induction false} LimitsReadIff(item: Json)
    requires item.Object?
    ensures CleanLimits(Get(item.fields, "limits")).Accepted? <==> LimitsRead(item)
  {
    var raw := Get(item.fields, "limits");
    if CleanLimits(raw).Accepted? { CleanLimitsIff(raw, CleanLimits(raw).value); }
    if LimitsRead(item) {
      var l :| SaysLimits(raw, l);
      CleanLimitsIff(raw, l);
    }
  }

  ghost predicate GroupReads(item: Json) {
    && item.Object? && Get(item.fields, "slice").Str? && IsGroupSlice(Get(item.fields, "slice").s)
    && LimitsRead(item)
  }

  ghost predicate AccountReads(item: Json) {
    && item.Object? && Get(item.fields, "slice").Str? && IsAccountSlice(Get(item.fields, "slice").s)
    && ListedUids(item).List?
    && (forall i :: 0 <= i < |ListedUids(item).items| ==>
          ListedUids(item).items[i].Int? && 1000 <= ListedUids(item).items[i].i <= 59999)
    && LimitsRead(item)
  }

  lemma {:induction false} GroupReadsIff(item: Json)
    ensures ReadGroup(item).Accepted? <==> GroupReads(item)
  {
    if item.Object? { LimitsReadIff(item); }
  }

  lemma {:induction false} AccountReadsIff(item: Json)
    ensures ReadAccount(item).Accepted? <==> AccountReads(item)
  {
    if item.Object? { LimitsReadIff(item); }
  }

  predicate ListsUid(item: Json, u: int) { item.Object? && ListedUids(item).List? && Int(u) in ListedUids(item).items }

  predicate SameSlice(a: Json, b: Json) { a.Object? && b.Object? && Get(a.fields, "slice") == Get(b.fields, "slice") }

  /** No uid is listed under two different slices. */
  ghost predicate UidsApart(items: seq<Json>) {
    forall i, j, u :: 0 <= i < j < |items| && ListsUid(items[i], u) && ListsUid(items[j], u) ==>
      SameSlice(items[i], items[j])
  }

  /** The documents that are accepted. */
  ghost predicate DocumentOk(data: Json) {
    && data.Object? && HeaderReads(data.fields)
    && (var groups := Items(data.fields, "groups");
        groups.Accepted? && forall i :: 0 <= i < |groups.value| ==> GroupReads(groups.value[i]))
    && (var accounts := Items(data.fields, "accounts");
        && accounts.Accepted? && (forall i :: 0 <= i < |accounts.value| ==> AccountReads(accounts.value[i]))
        && UidsApart(accounts.value))
  }

  lemma {:induction false} GroupsOkIff(items: seq<Json>)
    ensures GroupsOk(items) <==> forall i :: 0 <= i < |items| ==> GroupReads(items[i])
  {
    forall i | 0 <= i < |items| ensures ReadGroup(items[i]).Accepted? <==> GroupReads(items[i]) {
      GroupReadsIff(items[i]);
    }
  }

  lemma {:induction false} AllReadIff(items: seq<Json>)
    ensures AllRead(items) <==> forall i :: 0 <= i < |items| ==> AccountReads(items[i])
  {
    forall i | 0 <= i < |items| ensures ReadAccount(items[i]).Accepted? <==> AccountReads(items[i]) {
      AccountReadsIff(items[i]);
    }
  }

  /** The uids that are kept are those the item lists. */
  lemma {:induction false} UidsAsListed(item: Json, u: int)
    requires ReadAccount(item).Accepted?
    ensures u in ReadAccount(item).value.uids <==> ListsUid(item, u)
  {
    ListedOrNot(ListedUids(item).items, u);
  }

  lemma {:induction false} CompatibleIff(a: Json, b: Json)
    requires ReadAccount(a).Accepted? && ReadAccount(b).Accepted?
    ensures Compatible(ReadAccount(a).value, ReadAccount(b).value) <==>
            forall u :: ListsUid(a, u) && ListsUid(b, u) ==> SameSlice(a, b)
  {
    forall u
      ensures u in ReadAccount(a).value.uids <==> ListsUid(a, u)
      ensures u in ReadAccount(b).value.uids <==> ListsUid(b, u)
    {
      UidsAsListed(a, u);
      UidsAsListed(b, u);
    }
  }

  lemma {:induction false} AccountsOkIff(items: seq<Json>)
    ensures AccountsOk(items) <==>
            (forall i :: 0 <= i < |items| ==> AccountReads(items[i])) && UidsApart(items)
  {
    AllReadIff(items);
    if AllRead(items) {
      var read := AccountItems(items);
      forall i, j | 0 <= i < j < |items|
        ensures Compatible(read[i], read[j]) <==>
                forall u :: ListsUid(items[i], u) && ListsUid(items[j], u) ==>
      SameSlice(items[i], items[j])
      {
        CompatibleIff(items[i], items[j]);
      }
    }
  }

  lemma {:induction false} ValidIff(data: Json)
    ensures Valid(data) <==> DocumentOk(data)
  {
    if data.Object? {
      HeaderIff(data.fields);
      var groups, accounts := Items(data.fields, "groups"), Items(data.fields, "accounts");
      if groups.Accepted? { GroupsOkIff(groups.value); }
      if accounts.Accepted? { AccountsOkIff(accounts.value); }
    }
  }

  predicate Named(item: Json, name: string) { item.Object? && Get(item.fields, "slice") == Str(name) }

  /** The last item of that name, which is the one that counts. */
  ghost predicate LastNamed(items: seq<Json>, name: string, i: int) {
    0 <= i < |items| && Named(items[i], name) && forall j :: i < j < |items| ==> !Named(items[j], name)
  }

  /** A group has the limits of the last item of its name. */
  ghost predicate GroupsSaid(items: seq<Json>, groups: map<string, Limits>) {
    && (forall name :: name in groups ==> exists i :: LastNamed(items, name, i))
    && (forall name, i :: LastNamed(items, name, i) ==>
          name in groups && SaysLimits(Get(items[i].fields, "limits"), groups[name]))
  }

  /** An account has the limits, the uids and the choice about sessions of the last item of its name. */
  ghost predicate AccountsSaid(items: seq<Json>, accounts: map<string, Account>) {
    && (forall name :: name in accounts ==> exists i :: LastNamed(items, name, i))
    && (forall name, i :: LastNamed(items, name, i) ==> name in accounts && AccountSaid(items[i], accounts[name]))
  }

  ghost predicate AccountSaid(item: Json, account: Account)
    requires item.Object?
  {
    && SaysLimits(Get(item.fields, "limits"), account.limits)
    && (forall u :: u in account.uids <==> ListsUid(item, u))
    && (account.sessions <==> "sessions" !in item.fields || Truthy(item.fields["sessions"]))
  }

  /** If some item has the name, one of them is the last. */
  lemma {:induction false} SomeIsLast(items: seq<Json>, name: string, i: int)
    requires 0 <= i < |items| && Named(items[i], name)
    ensures exists j :: LastNamed(items, name, j)
    decreases |items| - i
  {
    if forall j :: i < j < |items| ==> !Named(items[j], name) {
      assert LastNamed(items, name, i);
    } else {
      var j :| i < j < |items| && Named(items[j], name);
      SomeIsLast(items, name, j);
    }
  }

  lemma {:induction false} ReadGroupSaid(item: Json)
    requires ReadGroup(item).Accepted?
    ensures var read := ReadGroup(item).value;
      SaysLimits(Get(item.fields, "limits"), read.limits) && Named(item, read.name)
  {
    CleanLimitsIff(Get(item.fields, "limits"), ReadGroup(item).value.limits);
  }

  lemma {:induction false} KeptGroupIsNamed(items: seq<Json>, name: string)
    requires GroupsOk(items) && name in GroupMap(GroupItems(items))
    ensures exists i :: LastNamed(items, name, i)
  {
    var i := GroupNamed(GroupItems(items), name);
    ReadGroupSaid(items[i]);
    SomeIsLast(items, name, i);
  }

  lemma {:induction false} LastGroupSaid(items: seq<Json>, name: string, i: int)
    requires GroupsOk(items) && LastNamed(items, name, i)
    ensures var groups := GroupMap(GroupItems(items));
      name in groups && SaysLimits(Get(items[i].fields, "limits"), groups[name])
  {
    var read := GroupItems(items);
    ReadGroupSaid(items[i]);
    NamedGroupIsKept(read, i);
    var k := GroupNamed(read, name);
    ReadGroupSaid(items[k]);
    assert k == i;
  }

  lemma {:induction false} GroupsAreSaid(items: seq<Json>)
    requires GroupsOk(items)
    ensures GroupsSaid(items, GroupMap(GroupItems(items)))
  {
    var groups := GroupMap(GroupItems(items));
    forall name | name in groups ensures exists i :: LastNamed(items, name, i) { KeptGroupIsNamed(items, name); }
    forall name, i | LastNamed(items, name, i)
      ensures name in groups && SaysLimits(Get(items[i].fields, "limits"), groups[name])
    {
      LastGroupSaid(items, name, i);
    }
  }

  lemma {:induction false} ReadAccountSaid(item: Json)
    requires ReadAccount(item).Accepted?
    ensures var read := ReadAccount(item).value;
      AccountSaid(item, Account((set u | u in read.uids), read.limits, read.sessions)) && Named(item, read.name)
  {
    var read := ReadAccount(item).value;
    CleanLimitsIff(Get(item.fields, "limits"), read.limits);
    forall u ensures u in read.uids <==> ListsUid(item, u) { UidsAsListed(item, u); }
  }

  lemma {:induction false} AccountsAreSaid(items: seq<Json>)
    requires AllRead(items)
    ensures AccountsSaid(items, AccountMap(AccountItems(items)))
  {
    var read := AccountItems(items);
    var accounts := AccountMap(read);
    forall i | 0 <= i < |items| ensures Named(items[i], read[i].name) { ReadAccountSaid(items[i]); }
    forall name | name in accounts ensures exists i :: LastNamed(items, name, i) {
      var i := LastItem(read, name);
      SomeIsLast(items, name, i);
    }
    forall name, i | LastNamed(items, name, i) ensures name in accounts && AccountSaid(items[i], accounts[name]) {
      NamedIsKept(read, i);
      var k := LastItem(read, name);
      assert Named(items[k], name);
      assert k == i;
      ReadAccountSaid(items[i]);
    }
  }

  /** What an accepted document says, read off the document. */
  ghost predicate Says(data: Json, c: Config)
    requires Valid(data)
  {
    var path, sources := Get(data.fields, "io_path"), Get(data.fields, "sources");
    && c.ioPath == (if Truthy(path) then path.s else "/home")
    && (if Truthy(sources)
        then |c.sources| == |sources.items| && forall i :: 0 <= i < |c.sources| ==> sources.items[i] == Str(c.sources[i])
        else c.sources == DEFAULT_SOURCES)
    && GroupsSaid(Items(data.fields, "groups").value, c.groups)
    && AccountsSaid(Items(data.fields, "accounts").value, c.accounts)
  }

  lemma {:induction false} ConfigSays(data: Json)
    requires Valid(data)
    ensures Says(data, ConfigOf(data))
  {
    GroupsAreSaid(Items(data.fields, "groups").value);
    AccountsAreSaid(Items(data.fields, "accounts").value);
  }

  lemma {:induction false} AcceptedSays(data: Json)
    ensures Valid(data) <==> DocumentOk(data)
    ensures Valid(data) ==> Says(data, ConfigOf(data))
  {
    ValidIff(data);
    if Valid(data) { ConfigSays(data); }
  }

  // ---------------------------------------------------------------- the maps

  function GroupMap(items: seq<GroupItem>): map<string, Limits> {
    if items == [] then map[]
    else
      var last := items[|items| - 1];
      GroupMap(items[..|items| - 1])[last.name := last.limits]
  }

  function GroupItems(items: seq<Json>): (read: seq<GroupItem>)
    requires GroupsOk(items)
    ensures |read| == |items|
  {
    seq(|items|, i requires 0 <= i < |items| => ReadGroup(items[i]).value)
  }

  function AccountMap(items: seq<AccountItem>): map<string, Account> {
    if items == [] then map[]
    else
      var last := items[|items| - 1];
      AccountMap(items[..|items| - 1])[last.name := Account((set u | u in last.uids), last.limits, last.sessions)]
  }

  function UidMap(items: seq<AccountItem>): map<int, string> {
    if items == [] then map[]
    else
      var last := items[|items| - 1];
      UidMap(items[..|items| - 1]) + map u | u in last.uids :: last.name
  }

  function AccountItems(items: seq<Json>): (read: seq<AccountItem>)
    requires AllRead(items)
    ensures |read| == |items|
  {
    seq(|items|, i requires 0 <= i < |items| => ReadAccount(items[i]).value)
  }

  /** What an accepted document says, item by item. */
  function ConfigOf(data: Json): Config
    requires Valid(data)
  {
    var path, sources := Get(data.fields, "io_path"), Get(data.fields, "sources");
    var accounts := AccountItems(Items(data.fields, "accounts").value);
    Config(
      if Truthy(path) then path.s else "/home",
      if Truthy(sources)
      then seq(|sources.items|, i requires 0 <= i < |sources.items| => sources.items[i].s)
      else DEFAULT_SOURCES,
      GroupMap(GroupItems(Items(data.fields, "groups").value)), AccountMap(accounts), UidMap(accounts))
  }

  // ---------------------------------------------------------------- loading

  /** Adds one account's uids to the map, or reports that one of them has another owner. */
  method AddUids(known: map<int, string>, uids: seq<int>, name: string)
    returns (ok: bool, grown: map<int, string>)
    ensures ok <==> forall u :: u in uids && u in known ==> known[u] == name
    ensures ok ==> grown == known + map u | u in uids :: name
  {
    grown := known;
    for i := 0 to |uids|
      invariant grown == known + map u | u in uids[..i] :: name
      invariant forall u :: u in uids[..i] && u in known ==> known[u] == name
    {
      assert uids[..i + 1] == uids[..i] + [uids[i]];
      if uids[i] in grown && grown[uids[i]] != name {
        var u := uids[i];
        assert u in uids && u in known && known[u] != name;
        return false, grown;
      }
      grown := grown[uids[i] := name];
    }
    assert uids[..|uids|] == uids;
    ok := true;
  }

  /** A mapped uid is listed by an account with the name it is mapped to. */
  lemma {:induction false} OwnerOf(items: seq<AccountItem>, u: int) returns (i: nat)
    requires u in UidMap(items)
    ensures i < |items| && u in items[i].uids && items[i].name == UidMap(items)[u]
  {
    i := |items| - 1;
    if u !in items[i].uids { i := OwnerOf(items[..i], u); }
  }

  lemma {:induction false} ListedIsMapped(items: seq<AccountItem>, i: nat, u: int)
    requires i < |items| && u in items[i].uids
    ensures u in UidMap(items)
  {
    if i < |items| - 1 { ListedIsMapped(items[..|items| - 1], i, u); }
  }

  /** Among compatible items, a listed uid is mapped to the slice that lists it. */
  lemma {:induction false} OwnerIsTheListing(items: seq<AccountItem>, i: nat, u: int)
    requires PairwiseCompatible(items)
    requires i < |items| && u in items[i].uids
    ensures u in UidMap(items) && UidMap(items)[u] == items[i].name
  {
    ListedIsMapped(items, i, u);
    var k := OwnerOf(items, u);
    if k < i { assert Compatible(items[k], items[i]); }
    if i < k { assert Compatible(items[i], items[k]); }
  }

  /** The next account fits the accounts before it exactly when none of its uids has another owner. */
  lemma {:induction false} ConflictIsIncompatibility(items: seq<AccountItem>, next: AccountItem)
    requires PairwiseCompatible(items)
    ensures (forall u :: u in next.uids && u in UidMap(items) ==> UidMap(items)[u] == next.name)
            <==> forall i :: 0 <= i < |items| ==> Compatible(items[i], next)
  {
    if forall i :: 0 <= i < |items| ==> Compatible(items[i], next) {
      forall u | u in next.uids && u in UidMap(items) ensures UidMap(items)[u] == next.name {
        var i := OwnerOf(items, u);
        assert Compatible(items[i], next);
      }
    }
    if forall u :: u in next.uids && u in UidMap(items) ==> UidMap(items)[u] == next.name {
      forall i | 0 <= i < |items| ensures Compatible(items[i], next) {
        forall u | u in items[i].uids && u in next.uids ensures items[i].name == next.name {
          OwnerIsTheListing(items, i, u);
        }
      }
    }
  }

  lemma {:induction false} CrashIsBadShape(item: Json)
    ensures ReadGroup(item).Crashed? || ReadOwner(item).Crashed? ==> !WellShapedItem(item)
    ensures item.Object? && CleanLimits(Get(item.fields, "limits")).Crashed? ==> !WellShapedItem(item)
  {
  }

  lemma {:induction false} OneMoreGroup(items: seq<Json>, k: nat)
    requires k < |items| && GroupsOk(items[..k]) && ReadGroup(items[k]).Accepted?
    ensures GroupsOk(items[..k + 1])
    ensures GroupMap(GroupItems(items[..k + 1])) ==
              GroupMap(GroupItems(items[..k]))[ReadGroup(items[k]).value.name := ReadGroup(items[k]).value.limits]
  {
    var longer := items[..k + 1];
    forall i | 0 <= i < |longer| ensures ReadGroup(longer[i]).Accepted? {
      if i < k { assert longer[i] == items[..k][i]; }
    }
    assert GroupItems(longer)[..k] == GroupItems(items[..k]) by {
      forall i | 0 <= i < k ensures GroupItems(longer)[i] == GroupItems(items[..k])[i] {
        assert longer[i] == items[..k][i];
      }
    }
  }

  method LoadGroups(items: seq<Json>) returns (r: Outcome<map<string, Limits>>)
    ensures r.Accepted? <==> GroupsOk(items)
    ensures r.Accepted? ==> r.value == GroupMap(GroupItems(items)) && GroupsSaid(items, r.value)
    ensures r.Crashed? <==> GroupsCrash(items)
  {
    var groups := map[];
    for k := 0 to |items|
      invariant GroupsOk(items[..k])
      invariant groups == GroupMap(GroupItems(items[..k]))
    {
      var item := ReadGroup(items[k]);
      if !item.Accepted? {
        FirstBadGroup(items, k);
        return if item.Refused? then Refused else Crashed;
      }
      OneMoreGroup(items, k);
      groups := groups[item.value.name := item.value.limits];
    }
    assert items[..|items|] == items;
    GroupsAreSaid(items);
    return Accepted(groups);
  }

  lemma {:induction false} EarlierGroupsRead(items: seq<Json>, k: nat)
    requires k <= |items| && GroupsOk(items[..k])
    ensures forall i :: 0 <= i < k ==> ReadGroup(items[i]).Accepted?
  {
  }

  /** The first group that does not read decides how the loop ends. */
  lemma {:induction false} FirstBadGroup(items: seq<Json>, k: nat)
    requires k < |items| && GroupsOk(items[..k]) && !ReadGroup(items[k]).Accepted?
    ensures GroupsCrash(items) <==> ReadGroup(items[k]).Crashed?
  {
    EarlierGroupsRead(items, k);
    if GroupsCrash(items) {
      var j :| 0 <= j < |items| && GroupsOk(items[..j]) && GroupEscapes(items[j]);
      EarlierGroupsRead(items, j);
    }
  }

  lemma {:induction false} OneMoreItem(items: seq<Json>, k: nat)
    requires k < |items| && AllRead(items[..k]) && ReadAccount(items[k]).Accepted?
    ensures AllRead(items[..k + 1])
    ensures AccountItems(items[..k + 1]) == AccountItems(items[..k]) + [ReadAccount(items[k]).value]
  {
    var longer := items[..k + 1];
    forall i | 0 <= i < |longer| ensures ReadAccount(longer[i]).Accepted? {
      if i < k { assert longer[i] == items[..k][i]; }
    }
    forall i | 0 <= i < k ensures AccountItems(items[..k + 1])[i] == AccountItems(items[..k])[i] {
      assert items[..k + 1][i] == items[..k][i];
    }
  }

  lemma {:induction false} PrefixOk(items: seq<Json>, k: nat)
    requires k < |items| && AccountsOk(items)
    ensures AccountsOk(items[..k + 1]) && ReadAccount(items[k]).Accepted?
  {
    var shorter := items[..k + 1];
    assert forall i :: 0 <= i <= k ==> shorter[i] == items[i];
    assert AllRead(shorter);
    assert forall i :: 0 <= i <= k ==> AccountItems(shorter)[i] == AccountItems(items)[i];
  }

  /** One more account is fine exactly when it fits every account before it. */
  lemma {:induction false} OneMoreAccount(before: seq<AccountItem>, next: AccountItem)
    requires PairwiseCompatible(before)
    ensures PairwiseCompatible(before + [next]) <==> forall i :: 0 <= i < |before| ==> Compatible(before[i], next)
  {
    var all := before + [next];
    if PairwiseCompatible(all) {
      forall i | 0 <= i < |before| ensures Compatible(before[i], next) {
        assert Compatible(all[i], all[|before|]);
      }
    }
  }

  /** One turn of the loop, behind the accounts read before. */
  method LoadAccount(accounts: map<string, Account>, uids: map<int, string>, item: Json, ghost before: seq<AccountItem>)
    returns (r: Outcome<(map<string, Account>, map<int, string>)>)
    requires PairwiseCompatible(before) && accounts == AccountMap(before) && uids == UidMap(before)
    ensures r.Accepted? <==> ReadAccount(item).Accepted? && PairwiseCompatible(before + [ReadAccount(item).value])
    ensures r.Accepted? ==>
              var all := before + [ReadAccount(item).value]; r.value == (AccountMap(all), UidMap(all))
    ensures r.Crashed? <==> AccountCrashes(before, item)
  {
    var owner := ReadOwner(item);
    if !owner.Accepted? { return if owner.Refused? then Refused else Crashed; }
    var (name, listed) := owner.value;
    ghost var next := AccountItem(name, listed, UNLIMITED, true);
    ConflictIsIncompatibility(before, next);
    var ok, grown := AddUids(uids, listed, name);
    assert ok <==> FitsBehind(before, owner.value);
    var limits := CleanLimits(Get(item.fields, "limits"));
    if limits.Accepted? {
      OneMoreAccount(before, ReadAccount(item).value);
      assert (before + [ReadAccount(item).value])[..|before|] == before;
    }
    if !ok { return Refused; }
    if !limits.Accepted? { return if limits.Refused? then Refused else Crashed; }
    return Accepted((accounts[name := Account((set u | u in listed), limits.value, Sessions(item))], grown));
  }

  method LoadAccounts(items: seq<Json>) returns (r: Outcome<(map<string, Account>, map<int, string>)>)
    ensures r.Accepted? <==> AccountsOk(items)
    ensures r.Accepted? ==> r.value == (AccountMap(AccountItems(items)), UidMap(AccountItems(items)))
    ensures r.Accepted? ==> AccountsSaid(items, r.value.0)
    ensures r.Crashed? <==> AccountsCrash(items)
  {
    var accounts: map<string, Account>, uids: map<int, string> := map[], map[];
    for k := 0 to |items|
      invariant AccountsOk(items[..k])
      invariant accounts == AccountMap(AccountItems(items[..k]))
      invariant uids == UidMap(AccountItems(items[..k]))
    {
      ghost var before := AccountItems(items[..k]);
      OneMoreIsOk(items, k);
      FirstBadAccount(items, k);
      var loaded := LoadAccount(accounts, uids, items[k], before);
      if !loaded.Accepted? { return loaded; }
      OneMoreItem(items, k);
      accounts, uids := loaded.value.0, loaded.value.1;
    }
    assert items[..|items|] == items;
    AccountsAreSaid(items);
    return Accepted((accounts, uids));
  }

  lemma {:induction false} OneMoreIsOk(items: seq<Json>, k: nat)
    requires k < |items| && AccountsOk(items[..k])
    ensures AccountsOk(items[..k + 1]) <==>
              ReadAccount(items[k]).Accepted? &&
              PairwiseCompatible(AccountItems(items[..k]) + [ReadAccount(items[k]).value])
    ensures AccountsOk(items) ==> AccountsOk(items[..k + 1])
  {
    if ReadAccount(items[k]).Accepted? { OneMoreItem(items, k); }
    assert items[..k + 1][k] == items[k];
    if AccountsOk(items) { PrefixOk(items, k); }
  }

  lemma {:induction false} PrefixStaysOk(items: seq<Json>, k: nat, j: nat)
    requires k < j <= |items| && AccountsOk(items[..j])
    ensures AccountsOk(items[..k + 1])
  {
    PrefixOk(items[..j], k);
    assert items[..j][..k + 1] == items[..k + 1];
  }

  /** An account that does not go in behind those before it decides how the loop ends. */
  lemma {:induction false} FirstBadAccount(items: seq<Json>, k: nat)
    requires k < |items| && AccountsOk(items[..k])
    ensures AccountCrashes(AccountItems(items[..k]), items[k]) ==> AccountsCrash(items)
    ensures !AccountsOk(items[..k + 1]) && AccountsCrash(items) ==>
              AccountCrashes(AccountItems(items[..k]), items[k])
  {
    AccountCrashesIff(AccountItems(items[..k]), items[k]);
    if !AccountsOk(items[..k + 1]) && AccountsCrash(items) {
      var j :| 0 <= j < |items| && AccountsOk(items[..j]) && AccountEscapes(AccountItems(items[..j]), items[j]);
      AccountCrashesIff(AccountItems(items[..j]), items[j]);
      if j < k {
        CrashingIsNotOk(items[..k], items, j);
      } else if k < j {
        PrefixStaysOk(items, k, j);
      }
    }
  }

  /** An account that raises an error does not read. */
  lemma {:induction false} CrashingIsNotOk(longer: seq<Json>, items: seq<Json>, j: nat)
    requires j < |longer| && longer <= items && AccountsOk(items[..j])
    requires AccountCrashes(AccountItems(items[..j]), items[j])
    ensures !AccountsOk(longer)
  {
  }

  /**
   A document is accepted exactly when it is valid, and then it means `ConfigOf`. Anything else
   is refused whole, except that a document whose first fault is one of shape escapes as another error.
   */
  method LoadConfig(data: Json) returns (r: Outcome<Config>)
    ensures r.Accepted? <==> Valid(data)
    ensures r.Accepted? <==> DocumentOk(data)
    ensures r.Accepted? ==> r.value == ConfigOf(data) && Says(data, r.value)
    ensures r.Crashed? <==> Crashes(data)
  {
    AcceptedSays(data);
    if !data.Object? || !IsOne(Get(data.fields, "version")) { return Refused; }
    var path, sources := Get(data.fields, "io_path"), Get(data.fields, "sources");
    if !HeaderOk(data.fields) { return Refused; }
    var ioPath := if Truthy(path) then path.s else "/home";
    var names := if Truthy(sources)
      then seq(|sources.items|, i requires 0 <= i < |sources.items| => sources.items[i].s)
      else DEFAULT_SOURCES;
    var groupItems := Items(data.fields, "groups");
    if groupItems.Crashed? { return Crashed; }
    var groups := LoadGroups(groupItems.value);
    if !groups.Accepted? { return if groups.Refused? then Refused else Crashed; }
    var accountItems := Items(data.fields, "accounts");
    if accountItems.Crashed? { return Crashed; }
    var accounts := LoadAccounts(accountItems.value);
    if !accounts.Accepted? { return if accounts.Refused? then Refused else Crashed; }
    return Accepted(Config(ioPath, names, groups.value, accounts.value.0, accounts.value.1));
  }

  /** Only a document of the wrong shape escapes so, but not every such document: another fault may come first. */
  lemma {:induction false} CrashesIsBadShape(data: Json)
    requires Crashes(data)
    ensures !WellShaped(data)
  {
    var groups, accounts := Items(data.fields, "groups"), Items(data.fields, "accounts");
    if groups.Accepted? && GroupsCrash(groups.value) {
      var k :| 0 <= k < |groups.value| && GroupsOk(groups.value[..k]) && GroupEscapes(groups.value[k]);
      CrashIsBadShape(groups.value[k]);
    } else if groups.Accepted? && accounts.Accepted? {
      var items := accounts.value;
      var k :| 0 <= k < |items| && AccountsOk(items[..k]) && AccountEscapes(AccountItems(items[..k]), items[k]);
      AccountCrashesIff(AccountItems(items[..k]), items[k]);
      CrashIsBadShape(items[k]);
    }
  }

  /** A version and one group that is a text: an error that is not a refusal. */
  lemma {:induction false} TextForAGroupEscapes()
    ensures Crashes(Object(map["version" := Int(1), "groups" := List([Str("x")])]))
  {
    var fields := map["version" := Int(1), "groups" := List([Str("x")])];
    var items := Items(fields, "groups").value;
    assert items[0] == Str("x") && items[..0] == [];
    assert ReadGroup(items[0]).Crashed?;
  }

  /** The same with a refusable fault before it: refused, although the shape is as wrong. */
  lemma {:induction false} EarlierFaultRefuses()
    ensures var data := Object(map["version" := Int(2), "groups" := List([Str("x")])]);
      !WellShaped(data) && !Valid(data) && !Crashes(data)
  {
    var fields := map["version" := Int(2), "groups" := List([Str("x")])];
    assert Str("x") in Items(fields, "groups").value;
  }

  // ---------------------------------------------------------------- what an accepted document means

  /** Every listed uid is a hosting uid that the uid map gives to the account that lists it. */
  ghost predicate WellFormed(c: Config) {
    && (forall g :: g in c.groups ==> IsGroupSlice(g))
    && (forall a :: a in c.accounts ==> IsAccountSlice(a) && OwnsItsUids(c, a))
    && (forall u :: u in c.uids ==> c.uids[u] in c.accounts && 1000 <= u < 60000)
  }

  ghost predicate OwnsItsUids(c: Config, a: string)
    requires a in c.accounts
  {
    forall u :: u in c.accounts[a].uids ==> 1000 <= u < 60000 && u in c.uids && c.uids[u] == a
  }

  lemma {:induction false} GroupNamed(items: seq<GroupItem>, g: string) returns (i: nat)
    requires g in GroupMap(items)
    ensures i < |items| && items[i].name == g && GroupMap(items)[g] == items[i].limits
    ensures forall j :: i < j < |items| ==> items[j].name != g
  {
    i := |items| - 1;
    if items[i].name != g { i := GroupNamed(items[..i], g); }
  }

  lemma {:induction false} NamedGroupIsKept(items: seq<GroupItem>, i: nat)
    requires i < |items|
    ensures items[i].name in GroupMap(items)
  {
    if i < |items| - 1 { NamedGroupIsKept(items[..|items| - 1], i); }
  }

  /** The last item with a name is the one that is kept. */
  lemma {:induction false} LastItem(items: seq<AccountItem>, name: string) returns (i: nat)
    requires name in AccountMap(items)
    ensures i < |items| && items[i].name == name
    ensures AccountMap(items)[name] == Account((set u | u in items[i].uids), items[i].limits, items[i].sessions)
    ensures forall j :: i < j < |items| ==> items[j].name != name
  {
    i := |items| - 1;
    if items[i].name != name { i := LastItem(items[..i], name); }
  }

  lemma {:induction false} NamedIsKept(items: seq<AccountItem>, i: nat)
    requires i < |items|
    ensures items[i].name in AccountMap(items)
  {
    if i < |items| - 1 { NamedIsKept(items[..|items| - 1], i); }
  }

  lemma {:induction false} AccountIsSound(raw: seq<Json>, a: string)
    requires AccountsOk(raw) && a in AccountMap(AccountItems(raw))
    ensures IsAccountSlice(a)
    ensures forall u :: u in AccountMap(AccountItems(raw))[a].uids ==>
              1000 <= u < 60000 && u in UidMap(AccountItems(raw)) && UidMap(AccountItems(raw))[u] == a
  {
    var items := AccountItems(raw);
    var i := LastItem(items, a);
    forall u | u in AccountMap(items)[a].uids ensures 1000 <= u < 60000 && u in UidMap(items) && UidMap(items)[u] == a {
      OwnerIsTheListing(items, i, u);
    }
  }

  lemma {:induction false} UidIsSound(raw: seq<Json>, u: int)
    requires AccountsOk(raw) && u in UidMap(AccountItems(raw))
    ensures UidMap(AccountItems(raw))[u] in AccountMap(AccountItems(raw)) && 1000 <= u < 60000
  {
    var i := OwnerOf(AccountItems(raw), u);
    NamedIsKept(AccountItems(raw), i);
  }

  /** No uid is in two accounts, and the uid map agrees with every account. */
  lemma {:induction false} AcceptedIsWellFormed(data: Json)
    requires Valid(data)
    ensures WellFormed(ConfigOf(data))
    ensures var c := ConfigOf(data);
            forall a, b, u ::
              (a in c.accounts && b in c.accounts && u in c.accounts[a].uids && u in c.accounts[b].uids) ==> a == b
  {
    var raw := Items(data.fields, "accounts").value;
    var c := ConfigOf(data);
    var groups := Items(data.fields, "groups").value;
    forall g | g in c.groups ensures IsGroupSlice(g) {
      var i := GroupNamed(GroupItems(groups), g);
    }
    forall a | a in c.accounts ensures IsAccountSlice(a) && OwnsItsUids(c, a) { AccountIsSound(raw, a); }
    forall u | u in c.uids ensures c.uids[u] in c.accounts && 1000 <= u < 60000 { UidIsSound(raw, u); }
    forall a, b, u | a in c.accounts && b in c.accounts && u in c.accounts[a].uids && u in c.accounts[b].uids
      ensures a == b
    {
      SharedUidSameAccount(c, a, b, u);
    }
  }

  lemma {:induction false} SharedUidSameAccount(c: Config, a: string, b: string, u: int)
    requires a in c.accounts && b in c.accounts && OwnsItsUids(c, a) && OwnsItsUids(c, b)
    requires u in c.accounts[a].uids && u in c.accounts[b].uids
    ensures a == b
  {
  }

  /** The uids of the last item with a name. */
  function LastUids(items: seq<AccountItem>, name: string): seq<int> {
    if items == [] then []
    else
      var last := items[|items| - 1];
      if last.name == name then last.uids else LastUids(items[..|items| - 1], name)
  }

  lemma {:induction false} KeptUids(items: seq<AccountItem>, name: string)
    requires name in AccountMap(items)
    ensures AccountMap(items)[name].uids == set u | u in LastUids(items, name)
  {
    if items[|items| - 1].name != name { KeptUids(items[..|items| - 1], name); }
  }

  /**
   The uid map holds nothing beyond the accounts' own lists exactly when a slice that is written
   twice lists, the last time, every uid it listed before.
   */
  lemma {:induction false} UidMapIsExactIff(items: seq<AccountItem>)
    requires PairwiseCompatible(items)
    ensures (forall u :: u in UidMap(items) ==> IsListed(items, u)) <==>
            forall i, u :: 0 <= i < |items| && u in items[i].uids ==> u in LastUids(items, items[i].name)
  {
    if forall u :: u in UidMap(items) ==> IsListed(items, u) {
      forall i, u | 0 <= i < |items| && u in items[i].uids ensures u in LastUids(items, items[i].name) {
        OwnerIsTheListing(items, i, u);
        KeptUids(items, items[i].name);
        assert IsListed(items, u);
      }
    }
    if forall i, u :: 0 <= i < |items| && u in items[i].uids ==> u in LastUids(items, items[i].name) {
      forall u | u in UidMap(items) ensures IsListed(items, u) {
        var i := OwnerOf(items, u);
        NamedIsKept(items, i);
        KeptUids(items, items[i].name);
      }
    }
  }

  /** The account a uid is mapped to lists it. */
  predicate IsListed(items: seq<AccountItem>, u: int)
    requires u in UidMap(items)
  {
    var owner := UidMap(items)[u];
    owner in AccountMap(items) && u in AccountMap(items)[owner].uids
  }

  lemma {:induction false} SliceOne()
    ensures IsAccountSlice("hosting-a1.slice")
  {
    var name, stem := "hosting-a1.slice", "hosting" + ['-'] + "a1";
    assert Chomp(name) == name && name == stem + SUFFIX && Stem(name) == stem;
    SplitFirst("hosting", "a1", '-');
    SplitWithout("a1", '-');
    assert "a1"[1..] == "1";
  }

  function ItemOf(uids: seq<Json>): Json {
    Object(map["slice" := Str("hosting-a1.slice"), "uids" := List(uids)])
  }

  lemma {:induction false} ItemFields(uids: seq<Json>)
    ensures var fields := ItemOf(uids).fields;
      && Get(fields, "slice") == Str("hosting-a1.slice") && Get(fields, "uids") == List(uids)
      && Get(fields, "limits") == Null && "sessions" !in fields
  {
  }

  lemma {:induction false} ItemReads(uids: seq<Json>)
    requires uids == [] || uids == [Int(1001)]
    ensures ReadAccount(ItemOf(uids)) ==
      Accepted(AccountItem("hosting-a1.slice", if uids == [] then [] else [1001], UNLIMITED, true))
  {
    SliceOne();
    ItemFields(uids);
    assert ReadOwner(ItemOf(uids)).value.1 == if uids == [] then [] else [1001];
  }

  /** A document that lists one slice twice, the second time without its uid. */
  function Rewritten(): Json {
    Object(map["version" := Int(1), "accounts" := List([ItemOf([Int(1001)]), ItemOf([])])])
  }

  const LISTING := AccountItem("hosting-a1.slice", [1001], UNLIMITED, true)
  const UNLISTING := AccountItem("hosting-a1.slice", [], UNLIMITED, true)

  lemma {:induction false} TwoItems(raw: seq<Json>, first: AccountItem, second: AccountItem)
    requires |raw| == 2 && ReadAccount(raw[0]) == Accepted(first) && ReadAccount(raw[1]) == Accepted(second)
    requires first.name == second.name
    ensures AllRead(raw) && AccountItems(raw) == [first, second] && PairwiseCompatible([first, second])
  {
    var read := AccountItems(raw);
    assert read[0] == first && read[1] == second && Compatible(first, second);
  }

  lemma {:induction false} RewrittenItems()
    ensures var raw := [ItemOf([Int(1001)]), ItemOf([])];
      AllRead(raw) && AccountItems(raw) == [LISTING, UNLISTING] && PairwiseCompatible([LISTING, UNLISTING])
  {
    ItemReads([Int(1001)]);
    ItemReads([]);
    TwoItems([ItemOf([Int(1001)]), ItemOf([])], LISTING, UNLISTING);
  }

  lemma {:induction false} RewrittenHeader()
    ensures var fields := Rewritten().fields;
      && HeaderOk(fields) && Items(fields, "groups") == Accepted([])
      && Items(fields, "accounts") == Accepted([ItemOf([Int(1001)]), ItemOf([])])
  {
  }

  /** It is accepted, and leaves the uid mapped to an account that does not list it. */
  lemma {:induction false} RewrittenSliceLeavesUidBehind()
    ensures Valid(Rewritten())
    ensures var c := ConfigOf(Rewritten());
      1001 in c.uids && c.uids[1001] in c.accounts && 1001 !in c.accounts[c.uids[1001]].uids
  {
    RewrittenItems();
    RewrittenHeader();
  }
}
