/** Reading `passwd` and `group` files, and what of a printed file survives being read. */
module Users {
  import opened Wrappers
  import opened Text

  datatype User = User(Name: string, UID: int, GID: int, Gecos: string, Home: string, Shell: string)

  datatype Group = Group(Name: string, ID: int, Members: seq<string>)

  // ---------------------------------------------------------------- lines and tables

  /** The lines a scanner yields. */
  function Lines(text: string): seq<string>
    decreases |text|
  {
    if text == "" then [] else [NextLine(text).0] + Lines(NextLine(text).1)
  }

  function Unlines(lines: seq<string>): string {
    if lines == [] then "" else lines[0] + "\n" + Unlines(lines[1..])
  }

  /** A line that the scanner gives back as it is. */
  predicate Scannable(line: string) { Free('\n', line) && (line == "" || line[|line| - 1] != '\r') }

  lemma {:induction false} LinesOfUnlines(lines: seq<string>)
    requires forall l :: l in lines ==> Scannable(l)
    ensures Lines(Unlines(lines)) == lines
    decreases |lines|
  {
    if lines != [] {
      assert Scannable(lines[0]);
      NextLineOfTerminated(lines[0], Unlines(lines[1..]));
      LinesOfUnlines(lines[1..]);
    }
  }

  /** A last line without a line end is a line like the others. */
  lemma {:induction false} LinesOfUnfinished(lines: seq<string>, last: string)
    requires (forall l :: l in lines ==> Scannable(l)) && Scannable(last) && last != ""
    ensures Lines(Unlines(lines) + last) == lines + [last]
    decreases |lines|
  {
    hide NextLine, DropCR;
    if lines == [] {
      LastIsKept(last);
      NextLineOfOthers(last, "");
      assert Unlines([]) + last == last;
    } else {
      assert Scannable(lines[0]);
      var rest := Unlines(lines[1..]) + last;
      assert Unlines(lines) + last == lines[0] + "\n" + rest;
      NextLineOfTerminated(lines[0], rest);
      LinesOfUnfinished(lines[1..], last);
    }
  }

  lemma LastIsKept(last: string)
    requires Scannable(last)
    ensures DropCR(last) == last
  {}

  predicate AllParse<T>(lines: seq<string>, parse: string -> Option<T>) {
    forall l :: l in lines ==> parse(l).Some?
  }

  function Entered<T>(table: map<string, T>, name: T -> string, entry: T): map<string, T> {
    table[name(entry) := entry]
  }

  /** Entries by name, a later one replacing an earlier one. */
  function Table<T>(lines: seq<string>, parse: string -> Option<T>, name: T -> string): map<string, T>
    requires AllParse(lines, parse)
    decreases |lines|
  {
    if lines == [] then map[]
    else
      var entry := parse(lines[|lines| - 1]).value;
      Entered(Table(lines[..|lines| - 1], parse, name), name, entry)
  }

  /** No later line has an entry of that name. */
  predicate LastOfName<T>(lines: seq<string>, parse: string -> Option<T>, name: T -> string, i: nat)
    requires AllParse(lines, parse) && i < |lines|
  {
    forall j :: i < j < |lines| ==> name(parse(lines[j]).value) != name(parse(lines[i]).value)
  }

  /** The table has exactly the names of the lines, each with the entry of its last line. */
  lemma {:induction false} LastEntryWins<T>(lines: seq<string>, parse: string -> Option<T>, name: T -> string)
    requires AllParse(lines, parse)
    ensures forall k ::
              k in Table(lines, parse, name) <==> exists i :: 0 <= i < |lines| && name(parse(lines[i]).value) == k
    ensures forall i :: 0 <= i < |lines| && LastOfName(lines, parse, name, i) ==>
              Table(lines, parse, name)[name(parse(lines[i]).value)] == parse(lines[i]).value
    decreases |lines|
  {
    if lines != [] {
      var before := lines[..|lines| - 1];
      LastEntryWins(before, parse, name);
      assert forall i :: 0 <= i < |before| ==> before[i] == lines[i];
    }
  }

  lemma NoLines<T>(parse: string -> Option<T>, name: T -> string)
    ensures Lines("") == [] && AllParse([], parse) && Table([], parse, name) == map[]
  {}

  /** What reading one more line comes to. */
  lemma OneLine<T>(done: seq<string>, rest: string, parse: string -> Option<T>, name: T -> string)
    requires rest != "" && AllParse(done, parse)
    ensures var (line, after) := NextLine(rest);
            && done + Lines(rest) == done + [line] + Lines(after)
            && (parse(line).None? ==> !AllParse(done + Lines(rest), parse))
            && (parse(line).Some? ==> AllParse(done + [line], parse))
            && (parse(line).Some? ==>
                  Table(done + [line], parse, name) == Entered(Table(done, parse, name), name, parse(line).value))
  {
    hide NextLine, Table, Entered;
    var line := NextLine(rest).0;
    assert Lines(rest) == [line] + Lines(NextLine(rest).1);
    assert (done + Lines(rest))[|done|] == line;
    if parse(line).Some? { OneEntry(done, line, parse, name); }
  }

  lemma OneEntry<T>(done: seq<string>, line: string, parse: string -> Option<T>, name: T -> string)
    requires AllParse(done, parse) && parse(line).Some?
    ensures AllParse(done + [line], parse)
    ensures Table(done + [line], parse, name) == Entered(Table(done, parse, name), name, parse(line).value)
  {}

  // ---------------------------------------------------------------- passwd

  function ParseUser(line: string): Option<User> {
    var splits := Split(line, ':');
    if |splits| != 7 then None
    else
      var uid, gid := Atoi(TrimSpace(splits[2])), Atoi(TrimSpace(splits[3]));
      if uid.None? || gid.None? then None
      else Some(User(TrimSpace(splits[0]), uid.value, gid.value,
                     TrimSpace(splits[4]), TrimSpace(splits[5]), TrimSpace(splits[6])))
  }

  function UserName(u: User): string { u.Name }

  /** `file` is what opening the file gave. */
  method ParseUsers(file: Option<string>) returns (r: Option<map<string, User>>)
    ensures r.Some? <==> file.Some? && AllParse(Lines(file.value), ParseUser)
    ensures r.Some? ==> r.value == Table(Lines(file.value), ParseUser, UserName)
  {
    hide Split, TrimSpace, Atoi, Table, Lines, NextLine, AllParse;
    if file.None? { return None; }
    NoLines(ParseUser, UserName);
    var ret: map<string, User> := map[];
    var rest := file.value;
    ghost var done: seq<string> := [];
    while rest != ""
      invariant Lines(file.value) == done + Lines(rest)
      invariant AllParse(done, ParseUser) && ret == Table(done, ParseUser, UserName)
      decreases |rest|
    {
      var (line, after) := NextLine(rest);
      OneLine(done, rest, ParseUser, UserName);
      var splits := Split(line, ':');
      if |splits| != 7 { return None; }
      var uid := Atoi(TrimSpace(splits[2]));
      if uid.None? { return None; }
      var gid := Atoi(TrimSpace(splits[3]));
      if gid.None? { return None; }
      var user := User(TrimSpace(splits[0]), uid.value, gid.value,
                       TrimSpace(splits[4]), TrimSpace(splits[5]), TrimSpace(splits[6]));
      ret := ret[user.Name := user];
      done, rest := done + [line], after;
    }
    assert Lines(file.value) == done;
    return Some(ret);
  }

  function UserFields(u: User, password: string): seq<string> {
    [u.Name, password, FormatInt(u.UID), FormatInt(u.GID), u.Gecos, u.Home, u.Shell]
  }

  function PrintUser(u: User, password: string): string { Join(UserFields(u, password), ':') }

  /** No field contains the separators, and the IDs fit the machine's integers. */
  predicate Separable(u: User, password: string) {
    && (forall f :: f in [u.Name, password, u.Gecos, u.Home, u.Shell] ==> Free(':', f) && Free('\n', f))
    && -MAX_INT64 - 1 <= u.UID <= MAX_INT64 && -MAX_INT64 - 1 <= u.GID <= MAX_INT64
  }

  predicate TrimmedUser(u: User) { Trimmed(u.Name) && Trimmed(u.Gecos) && Trimmed(u.Home) && Trimmed(u.Shell) }

  lemma FieldsAreFree(u: User, password: string)
    requires Separable(u, password)
    ensures forall f :: f in UserFields(u, password) ==> Free(':', f) && Free('\n', f)
  {}

  /** A printed user is read back exactly when its fields are trimmed. */
  lemma UserReadsBack(u: User, password: string)
    requires Separable(u, password)
    ensures ParseUser(PrintUser(u, password)) == Some(u) <==> TrimmedUser(u)
  {
    FieldsAreFree(u, password);
    SplitJoin(UserFields(u, password), ':');
    FormatIntTrimmed(u.UID);
    FormatIntTrimmed(u.GID);
    AtoiFormatInt(u.UID);
    AtoiFormatInt(u.GID);
    TrimSpaceFixpoint(u.Name);
    TrimSpaceFixpoint(u.Gecos);
    TrimSpaceFixpoint(u.Home);
    TrimSpaceFixpoint(u.Shell);
  }

  function PrintUsers(us: seq<User>, password: string): seq<string> {
    seq(|us|, i requires 0 <= i < |us| => PrintUser(us[i], password))
  }

  lemma PrintedUserScans(u: User, password: string)
    requires Separable(u, password) && Trimmed(u.Shell)
    ensures Scannable(PrintUser(u, password))
  {
    var fields := UserFields(u, password);
    FieldsAreFree(u, password);
    JoinFree(fields, ':', '\n');
    JoinEnd(fields, ':');
  }

  /** `file` without its line ends; each line is read as the entry it was printed from. */
  ghost predicate ReadsAs<T(!new)>(lines: seq<string>, parse: string -> Option<T>, entries: seq<T>) {
    |lines| == |entries| && forall i :: 0 <= i < |entries| ==> parse(lines[i]) == Some(entries[i])
  }

  /** The table holds exactly the names of the entries, each with its last entry. */
  ghost predicate Holds<T(!new)>(table: map<string, T>, name: T -> string, entries: seq<T>) {
    && (forall k :: k in table <==> exists i :: 0 <= i < |entries| && name(entries[i]) == k)
    && forall i :: 0 <= i < |entries| && (forall j :: i < j < |entries| ==> name(entries[j]) != name(entries[i])) ==>
         table[name(entries[i])] == entries[i]
  }

  lemma TableHolds<T(!new)>(lines: seq<string>, parse: string -> Option<T>, name: T -> string, entries: seq<T>)
    requires ReadsAs(lines, parse, entries)
    ensures AllParse(lines, parse) && Holds(Table(lines, parse, name), name, entries)
  {
    LastEntryWins(lines, parse, name);
    assert forall i :: 0 <= i < |entries| ==> parse(lines[i]).value == entries[i];
  }

  /** Printing users and reading the file gives them back by name, the last one of each name. */
  lemma UsersRoundTrip(us: seq<User>, password: string)
    requires forall u :: u in us ==> Separable(u, password) && TrimmedUser(u)
    ensures var lines := Lines(Unlines(PrintUsers(us, password)));
            AllParse(lines, ParseUser) && Holds(Table(lines, ParseUser, UserName), UserName, us)
  {
    var lines := PrintUsers(us, password);
    forall i | 0 <= i < |us|
      ensures ParseUser(lines[i]) == Some(us[i]) && Scannable(lines[i])
    {
      UserReadsBack(us[i], password);
      PrintedUserScans(us[i], password);
    }
    LinesOfUnlines(lines);
    TableHolds(lines, ParseUser, UserName, us);
  }

  // ---------------------------------------------------------------- group

  function ParseGroup(line: string): Option<Group> {
    var splits := Split(line, ':');
    if |splits| != 4 then None
    else
      var membs, gid := TrimSpace(splits[3]), Atoi(TrimSpace(splits[2]));
      if gid.None? then None
      else Some(Group(TrimSpace(splits[0]), gid.value, if membs != "" then Split(membs, ',') else []))
  }

  function GroupName(g: Group): string { g.Name }

  method ParseGroups(file: Option<string>) returns (r: Option<map<string, Group>>)
    ensures r.Some? <==> file.Some? && AllParse(Lines(file.value), ParseGroup)
    ensures r.Some? ==> r.value == Table(Lines(file.value), ParseGroup, GroupName)
  {
    hide Split, TrimSpace, Atoi, Table, Lines, NextLine, AllParse;
    if file.None? { return None; }
    NoLines(ParseGroup, GroupName);
    var ret: map<string, Group> := map[];
    var rest := file.value;
    ghost var done: seq<string> := [];
    while rest != ""
      invariant Lines(file.value) == done + Lines(rest)
      invariant AllParse(done, ParseGroup) && ret == Table(done, ParseGroup, GroupName)
      decreases |rest|
    {
      var (line, after) := NextLine(rest);
      OneLine(done, rest, ParseGroup, GroupName);
      var splits := Split(line, ':');
      if |splits| != 4 { return None; }
      var group := Group(TrimSpace(splits[0]), 0, []);
      var membs := TrimSpace(splits[3]);
      if membs != "" { group := group.(Members := Split(membs, ',')); }
      var gid := Atoi(TrimSpace(splits[2]));
      if gid.None? { return None; }
      group := group.(ID := gid.value);
      ret := ret[group.Name := group];
      done, rest := done + [line], after;
    }
    assert Lines(file.value) == done;
    return Some(ret);
  }

  function GroupFields(g: Group, password: string): seq<string> {
    [g.Name, password, FormatInt(g.ID), Join(g.Members, ',')]
  }

  function PrintGroup(g: Group, password: string): string { Join(GroupFields(g, password), ':') }

  predicate SeparableGroup(g: Group, password: string) {
    && (forall f :: f in [g.Name, password] + g.Members ==> Free(':', f) && Free('\n', f))
    && (forall m :: m in g.Members ==> Free(',', m)) && -MAX_INT64 - 1 <= g.ID <= MAX_INT64
  }

  /** The name and the joined list are trimmed, and the list is not that of one empty name. */
  predicate TrimmedGroup(g: Group) { Trimmed(g.Name) && Trimmed(Join(g.Members, ',')) && g.Members != [""] }

  lemma GroupFieldsAreFree(g: Group, password: string)
    requires SeparableGroup(g, password)
    ensures forall f :: f in GroupFields(g, password) ==> Free(':', f) && Free('\n', f)
  {
    FormatIntTrimmed(g.ID);
    assert forall m :: m in g.Members ==> m in [g.Name, password] + g.Members;
    JoinFree(g.Members, ',', ':');
    JoinFree(g.Members, ',', '\n');
  }

  /** A printed group is read back exactly when it is trimmed; a list of no members is, and stays, empty. */
  lemma GroupReadsBack(g: Group, password: string)
    requires SeparableGroup(g, password)
    ensures ParseGroup(PrintGroup(g, password)) == Some(g) <==> TrimmedGroup(g)
  {
    GroupFieldsAreFree(g, password);
    SplitJoin(GroupFields(g, password), ':');
    FormatIntTrimmed(g.ID);
    AtoiFormatInt(g.ID);
    TrimSpaceFixpoint(g.Name);
    TrimSpaceFixpoint(Join(g.Members, ','));
    MembersReadBack(g.Members);
  }

  /** Reading a joined list gives it back when trimming leaves it alone, unless it is one empty name. */
  lemma MembersReadBack(members: seq<string>)
    requires forall m :: m in members ==> Free(',', m)
    ensures var membs := TrimSpace(Join(members, ','));
            (if membs != "" then Split(membs, ',') else []) == members <==>
            Trimmed(Join(members, ',')) && members != [""]
  {
    var joined := Join(members, ',');
    TrimSpaceFixpoint(joined);
    JoinSplit(TrimSpace(joined), ',');
    if members != [] {
      SplitJoin(members, ',');
      JoinEnd(members, ',');
      assert |members| == 1 ==> members == [joined];
    }
  }

  lemma PrintedGroupScans(g: Group, password: string)
    requires SeparableGroup(g, password) && TrimmedGroup(g)
    ensures Scannable(PrintGroup(g, password))
  {
    var fields := GroupFields(g, password);
    GroupFieldsAreFree(g, password);
    JoinFree(fields, ':', '\n');
    JoinEnd(fields, ':');
  }

  function PrintGroups(gs: seq<Group>, password: string): seq<string> {
    seq(|gs|, i requires 0 <= i < |gs| => PrintGroup(gs[i], password))
  }

  lemma GroupsRoundTrip(gs: seq<Group>, password: string)
    requires forall g :: g in gs ==> SeparableGroup(g, password) && TrimmedGroup(g)
    ensures var lines := Lines(Unlines(PrintGroups(gs, password)));
            AllParse(lines, ParseGroup) && Holds(Table(lines, ParseGroup, GroupName), GroupName, gs)
  {
    var lines := PrintGroups(gs, password);
    forall i | 0 <= i < |gs|
      ensures ParseGroup(lines[i]) == Some(gs[i]) && Scannable(lines[i])
    {
      GroupReadsBack(gs[i], password);
      PrintedGroupScans(gs[i], password);
    }
    LinesOfUnlines(lines);
    TableHolds(lines, ParseGroup, GroupName, gs);
  }
}
