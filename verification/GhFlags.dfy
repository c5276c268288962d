/**
 The gh flag generator: every command's flags, value-taking or not, folded into two tables by group and two
 tables of exceptions by command, and the lookup over them that must still mean what the help said.
 */
module GhFlags {
  import opened Wrappers

  /** One help page: the words of the command and its flags. */
  datatype Row = Row(words: seq<string>, value: set<string>, boolean: set<string>)

  const SPACE := ' '

  /** What split() gives. */
  predicate Word(s: string) { s != "" && SPACE !in s }

  predicate WellFormed(rows: seq<Row>) {
    forall r | r in rows :: r.words != [] && forall w | w in r.words :: Word(w)
  }

  /** A command by its first two words: a third level folds into its verb. */
  function Command(words: seq<string>): string
    requires words != []
  {
    if |words| == 1 then words[0] else words[0] + " " + words[1]
  }

  /** The command the lookup asks for. */
  function Asked(group: string, verb: string): string {
    if verb != "" then group + " " + verb else group
  }

  // One group's commands

  datatype Entry = Entry(command: string, value: set<string>, boolean: set<string>)

  function EntriesOf(rows: seq<Row>, group: string): seq<Entry>
    requires WellFormed(rows)
  {
    if rows == [] then []
    else
      var r := rows[|rows| - 1];
      assert forall q | q in rows[..|rows| - 1] :: q in rows;
      EntriesOf(rows[..|rows| - 1], group)
        + if r.words[0] == group then [Entry(Command(r.words), r.value, r.boolean)] else []
  }

  function AllValue(es: seq<Entry>): set<string> { set e, f | e in es && f in e.value :: f }

  function AllBoolean(es: seq<Entry>): set<string> { set e, f | e in es && f in e.boolean :: f }

  function ValueOf(es: seq<Entry>, command: string): set<string> {
    set e, f | e in es && e.command == command && f in e.value :: f
  }

  function BooleanOf(es: seq<Entry>, command: string): set<string> {
    set e, f | e in es && e.command == command && f in e.boolean :: f
  }

  function Conflicts(es: seq<Entry>): set<string> { AllValue(es) * AllBoolean(es) }

  // The generated tables and the lookup

  type Table = map<string, set<string>>

  function Get(t: Table, key: string): set<string> { if key in t then t[key] else {} }

  datatype Tables = Tables(value: Table, boolean: Table, commandValue: Table, commandBoolean: Table)

  const GLOBAL_BOOLEAN := {"--help", "-h"}

  function TakesValue(t: Tables, group: string, verb: string, flag: string): Option<bool> {
    var command := Asked(group, verb);
    if flag in Get(t.commandValue, command) then Some(true)
    else if flag in Get(t.commandBoolean, command) then Some(false)
    else if flag in Get(t.value, group) then Some(true)
    else if flag in Get(t.boolean, group) || flag in GLOBAL_BOOLEAN then Some(false)
    else None
  }

  // What the help pages say

  predicate ListsValue(rows: seq<Row>, command: string, flag: string)
    requires WellFormed(rows)
  {
    exists r | r in rows :: Command(r.words) == command && flag in r.value
  }

  predicate ListsBoolean(rows: seq<Row>, command: string, flag: string)
    requires WellFormed(rows)
  {
    exists r | r in rows :: Command(r.words) == command && flag in r.boolean
  }

  predicate GroupValue(rows: seq<Row>, group: string, flag: string)
    requires WellFormed(rows)
  {
    exists r | r in rows :: r.words[0] == group && flag in r.value
  }

  predicate GroupBoolean(rows: seq<Row>, group: string, flag: string)
    requires WellFormed(rows)
  {
    exists r | r in rows :: r.words[0] == group && flag in r.boolean
  }

  /** The command's own word first, then its group's when the group agrees with itself, then the global flags. */
  function Meaning(rows: seq<Row>, group: string, verb: string, flag: string): Option<bool>
    requires WellFormed(rows)
  {
    var command := Asked(group, verb);
    if ListsValue(rows, command, flag) then Some(true)
    else if ListsBoolean(rows, command, flag) then Some(false)
    else if GroupValue(rows, group, flag) && !GroupBoolean(rows, group, flag) then Some(true)
    else if GroupBoolean(rows, group, flag) && !GroupValue(rows, group, flag) then Some(false)
    else if flag in GLOBAL_BOOLEAN then Some(false)
    else None
  }

  /** A flag listed as both kinds for one command. */
  ghost predicate Ambiguous(rows: seq<Row>)
    requires WellFormed(rows)
  {
    exists command, flag :: ListsValue(rows, command, flag) && ListsBoolean(rows, command, flag)
  }

  /** The tables as render() builds them, each described on its own. */
  ghost predicate Folded(rows: seq<Row>, t: Tables)
    requires WellFormed(rows)
  {
    && (forall g: string :: Get(t.value, g) == AllValue(EntriesOf(rows, g)) - Conflicts(EntriesOf(rows, g)))
    && (forall g: string ::
          Get(t.boolean, g) == AllBoolean(EntriesOf(rows, g)) - Conflicts(EntriesOf(rows, g)) - GLOBAL_BOOLEAN)
    && (forall c: string, f: string :: f in Get(t.commandValue, c) <==> ExceptionValue(rows, c, f))
    && (forall c: string, f: string :: f in Get(t.commandBoolean, c) <==> ExceptionBoolean(rows, c, f))
  }

  ghost predicate ExceptionValue(rows: seq<Row>, c: string, f: string)
    requires WellFormed(rows)
  {
    exists g: string :: f in ValueOf(EntriesOf(rows, g), c) && f in Conflicts(EntriesOf(rows, g))
  }

  ghost predicate ExceptionBoolean(rows: seq<Row>, c: string, f: string)
    requires WellFormed(rows)
  {
    exists g: string :: f in BooleanOf(EntriesOf(rows, g), c) && f in Conflicts(EntriesOf(rows, g))
  }

  // From rows to entries

  lemma {:induction false} EntryFromRow(rows: seq<Row>, group: string, e: Entry)
    requires WellFormed(rows)
    ensures e in EntriesOf(rows, group) <==>
      exists r | r in rows :: r.words[0] == group && e == Entry(Command(r.words), r.value, r.boolean)
  {
    if rows != [] {
      var init, last := rows[..|rows| - 1], rows[|rows| - 1];
      assert forall q | q in init :: q in rows;
      EntryFromRow(init, group, e);
      assert rows == init + [last];
    }
  }

  lemma GroupFlags(rows: seq<Row>, group: string, flag: string)
    requires WellFormed(rows)
    ensures flag in AllValue(EntriesOf(rows, group)) <==> GroupValue(rows, group, flag)
    ensures flag in AllBoolean(EntriesOf(rows, group)) <==> GroupBoolean(rows, group, flag)
  {
    forall e ensures e in EntriesOf(rows, group) <==>
      exists r | r in rows :: r.words[0] == group && e == Entry(Command(r.words), r.value, r.boolean)
    {
      EntryFromRow(rows, group, e);
    }
    if GroupValue(rows, group, flag) {
      var r :| r in rows && r.words[0] == group && flag in r.value;
      assert Entry(Command(r.words), r.value, r.boolean) in EntriesOf(rows, group);
    }
    if GroupBoolean(rows, group, flag) {
      var r :| r in rows && r.words[0] == group && flag in r.boolean;
      assert Entry(Command(r.words), r.value, r.boolean) in EntriesOf(rows, group);
    }
  }

  /** A command read back as its group and verb: joining words loses nothing. */
  lemma CommandGroup(words: seq<string>, group: string, verb: string)
    requires words != [] && (forall w | w in words :: Word(w)) && Word(group) && (verb == "" || Word(verb))
    requires Command(words) == Asked(group, verb)
    ensures words[0] == group
  {
    var c, w := Command(words), words[0];
    assert w in words;
    FirstSpace(c, w, group);
  }

  /** The first word of a text is where its first space says. */
  lemma FirstSpace(c: string, a: string, b: string)
    requires Word(a) && Word(b) && a <= c && b <= c
    requires (|a| < |c| ==> c[|a|] == SPACE) && (|b| < |c| ==> c[|b|] == SPACE)
    ensures a == b
  {
    assert forall i | 0 <= i < |a| :: c[i] == a[i] && a[i] in a;
    assert forall i | 0 <= i < |b| :: c[i] == b[i] && b[i] in b;
    assert |a| == |b|;
  }

  lemma SameCommandSameGroup(a: seq<string>, b: seq<string>)
    requires a != [] && b != [] && (forall w | w in a :: Word(w)) && (forall w | w in b :: Word(w))
    requires Command(a) == Command(b)
    ensures a[0] == b[0]
  {
    assert b[0] in b;
    if |b| > 1 { assert b[1] in b; }
    CommandGroup(a, b[0], if |b| > 1 then b[1] else "");
  }

  /** An exception is a flag of the command that the command's own group lists both ways. */
  lemma ExceptionMeans(rows: seq<Row>, c: string, f: string)
    requires WellFormed(rows)
    ensures ExceptionValue(rows, c, f) <==>
      exists r | r in rows :: Command(r.words) == c && f in r.value && GroupBoolean(rows, r.words[0], f)
    ensures ExceptionBoolean(rows, c, f) <==>
      exists r | r in rows :: Command(r.words) == c && f in r.boolean && GroupValue(rows, r.words[0], f)
  {
    forall g: string, e: Entry
      ensures e in EntriesOf(rows, g) <==>
        exists r | r in rows :: r.words[0] == g && e == Entry(Command(r.words), r.value, r.boolean)
    {
      EntryFromRow(rows, g, e);
    }
    forall g: string
      ensures f in AllValue(EntriesOf(rows, g)) <==> GroupValue(rows, g, f)
      ensures f in AllBoolean(EntriesOf(rows, g)) <==> GroupBoolean(rows, g, f)
    {
      GroupFlags(rows, g, f);
    }
    hide EntriesOf;
    if r :| r in rows && Command(r.words) == c && f in r.value && GroupBoolean(rows, r.words[0], f) {
      assert Entry(Command(r.words), r.value, r.boolean) in EntriesOf(rows, r.words[0]);
      assert f in ValueOf(EntriesOf(rows, r.words[0]), c);
      assert GroupValue(rows, r.words[0], f);
    }
    if r :| r in rows && Command(r.words) == c && f in r.boolean && GroupValue(rows, r.words[0], f) {
      assert Entry(Command(r.words), r.value, r.boolean) in EntriesOf(rows, r.words[0]);
      assert f in BooleanOf(EntriesOf(rows, r.words[0]), c);
      assert GroupBoolean(rows, r.words[0], f);
    }
  }

  /** The generator raises exactly when some command lists a flag both ways. */
  lemma AmbiguousIff(rows: seq<Row>)
    requires WellFormed(rows)
    ensures Ambiguous(rows) <==>
      exists c: string, f: string :: ExceptionValue(rows, c, f) && ExceptionBoolean(rows, c, f)
  {
    hide ExceptionValue, ExceptionBoolean;
    if Ambiguous(rows) {
      var c, f :| ListsValue(rows, c, f) && ListsBoolean(rows, c, f);
      var r :| r in rows && Command(r.words) == c && f in r.value;
      var q :| q in rows && Command(q.words) == c && f in q.boolean;
      SameCommandSameGroup(r.words, q.words);
      ExceptionMeans(rows, c, f);
    }
    if c: string, f: string :| ExceptionValue(rows, c, f) && ExceptionBoolean(rows, c, f) {
      ExceptionMeans(rows, c, f);
      assert ListsValue(rows, c, f) && ListsBoolean(rows, c, f);
    }
  }

  /** For one command: its exceptions are exactly its own flags that its group lists both ways. */
  lemma ExceptionsOfCommand(rows: seq<Row>, group: string, verb: string, f: string)
    requires WellFormed(rows) && Word(group) && (verb == "" || Word(verb))
    ensures ExceptionValue(rows, Asked(group, verb), f) <==>
      ListsValue(rows, Asked(group, verb), f) && GroupBoolean(rows, group, f)
    ensures ExceptionBoolean(rows, Asked(group, verb), f) <==>
      ListsBoolean(rows, Asked(group, verb), f) && GroupValue(rows, group, f)
    ensures ListsValue(rows, Asked(group, verb), f) ==> GroupValue(rows, group, f)
    ensures ListsBoolean(rows, Asked(group, verb), f) ==> GroupBoolean(rows, group, f)
  {
    hide ExceptionValue, ExceptionBoolean;
    var c := Asked(group, verb);
    ExceptionMeans(rows, c, f);
    forall r | r in rows && Command(r.words) == c ensures r.words[0] == group {
      CommandGroup(r.words, group, verb);
    }
  }

  /**
   The compressed tables mean what the help pages say, for every command and every flag: a flag the command lists
   reads as it is listed, third levels folded into their verb; one only its group lists reads as the group lists it;
   one nobody lists is unknown unless every command takes it.
   */
  lemma LookupMeansHelp(rows: seq<Row>, t: Tables, group: string, verb: string, flag: string)
    requires WellFormed(rows) && Folded(rows, t) && !Ambiguous(rows) && Word(group) && (verb == "" || Word(verb))
    ensures TakesValue(t, group, verb, flag) == Meaning(rows, group, verb, flag)
  {
    var c := Asked(group, verb);
    GroupFlags(rows, group, flag);
    ExceptionsOfCommand(rows, group, verb, flag);
    assert flag in Get(t.commandValue, c) <==> ExceptionValue(rows, c, flag);
    assert flag in Get(t.commandBoolean, c) <==> ExceptionBoolean(rows, c, flag);
    assert !(ListsValue(rows, c, flag) && ListsBoolean(rows, c, flag));
    hide EntriesOf, AllValue, AllBoolean, ExceptionValue, ExceptionBoolean;
    hide ListsValue, ListsBoolean, GroupValue, GroupBoolean, Ambiguous;
  }

  /** What a row lists is what the lookup says, for its own group and verb. */
  lemma ListedFlagsKeepTheirKind(rows: seq<Row>, t: Tables, r: Row, flag: string)
    requires WellFormed(rows) && Folded(rows, t) && !Ambiguous(rows) && r in rows
    ensures var verb := if |r.words| > 1 then r.words[1] else "";
      && (flag in r.value ==> TakesValue(t, r.words[0], verb, flag) == Some(true))
      && (flag in r.boolean ==> TakesValue(t, r.words[0], verb, flag) == Some(false))
  {
    hide Folded, EntriesOf;
    var verb := if |r.words| > 1 then r.words[1] else "";
    assert r.words[0] in r.words && (|r.words| > 1 ==> r.words[1] in r.words);
    assert Asked(r.words[0], verb) == Command(r.words);
    assert flag in r.value ==> ListsValue(rows, Command(r.words), flag);
    assert flag in r.boolean ==> ListsBoolean(rows, Command(r.words), flag);
    LookupMeansHelp(rows, t, r.words[0], verb, flag);
  }

  // The generator

  type Groups = map<string, seq<Entry>>

  function Rows(groups: Groups, g: string): seq<Entry> { if g in groups then groups[g] else [] }

  method Grouped(rows: seq<Row>) returns (groups: Groups)
    requires WellFormed(rows)
    ensures forall g: string :: Rows(groups, g) == EntriesOf(rows, g)
  {
    groups := map[];
    for i := 0 to |rows|
      invariant WellFormed(rows[..i])
      invariant forall g: string :: Rows(groups, g) == EntriesOf(rows[..i], g)
    {
      var r := rows[i];
      assert rows[..i + 1][..i] == rows[..i];
      var g := r.words[0];
      groups := groups[g := Rows(groups, g) + [Entry(Command(r.words), r.value, r.boolean)]];
    }
    assert rows[..|rows|] == rows;
  }

  lemma FlagsOfOneMore(es: seq<Entry>, e: Entry, c: string)
    ensures ValueOf(es + [e], c) == ValueOf(es, c) + if e.command == c then e.value else {}
    ensures BooleanOf(es + [e], c) == BooleanOf(es, c) + if e.command == c then e.boolean else {}
  {
  }

  /** setdefault(command, set()).update(flags), when there are any. */
  method Update(t: Table, command: string, flags: set<string>) returns (t': Table)
    ensures forall c: string :: Get(t', c) == Get(t, c) + if c == command then flags else {}
  {
    t' := if flags != {} then t[command := Get(t, command) + flags] else t;
  }

  ghost predicate ValueAdded(t: Table, es: seq<Entry>, conflicts: set<string>, t': Table) {
    forall c: string :: Get(t', c) == Get(t, c) + ValueOf(es, c) * conflicts
  }

  ghost predicate BooleanAdded(t: Table, es: seq<Entry>, conflicts: set<string>, t': Table) {
    forall c: string :: Get(t', c) == Get(t, c) + BooleanOf(es, c) * conflicts
  }

  lemma OneMoreEntry(t: Table, es: seq<Entry>, conflicts: set<string>, e: Entry)
    ensures forall t1: Table, t2: Table
              | && ValueAdded(t, es, conflicts, t1)
                && forall c: string :: Get(t2, c) == Get(t1, c) + if c == e.command then e.value * conflicts else {} ::
              ValueAdded(t, es + [e], conflicts, t2)
    ensures forall t1: Table, t2: Table
              | && BooleanAdded(t, es, conflicts, t1)
                && forall c: string ::
                     Get(t2, c) == Get(t1, c) + if c == e.command then e.boolean * conflicts else {} ::
              BooleanAdded(t, es + [e], conflicts, t2)
  {
    hide ValueOf, BooleanOf, Get;
    forall c: string
      ensures ValueOf(es + [e], c) == ValueOf(es, c) + if e.command == c then e.value else {}
      ensures BooleanOf(es + [e], c) == BooleanOf(es, c) + if e.command == c then e.boolean else {}
    {
      FlagsOfOneMore(es, e, c);
    }
  }

  /** One group's exceptions into the tables by command. */
  method FoldGroup(es: seq<Entry>, conflicts: set<string>, cv: Table, cb: Table) returns (cv': Table, cb': Table)
    ensures ValueAdded(cv, es, conflicts, cv')
    ensures BooleanAdded(cb, es, conflicts, cb')
  {
    hide ValueAdded, BooleanAdded, Get;
    cv', cb' := cv, cb;
    NothingAdded(cv, cb, conflicts);
    for i := 0 to |es|
      invariant ValueAdded(cv, es[..i], conflicts, cv')
      invariant BooleanAdded(cb, es[..i], conflicts, cb')
    {
      var e := es[i];
      assert es[..i + 1] == es[..i] + [e];
      OneMoreEntry(cv, es[..i], conflicts, e);
      OneMoreEntry(cb, es[..i], conflicts, e);
      cv' := Update(cv', e.command, e.value * conflicts);
      cb' := Update(cb', e.command, e.boolean * conflicts);
    }
    assert es[..|es|] == es;
  }

  lemma NoFlags()
    ensures forall c: string :: ValueOf([], c) == {} && BooleanOf([], c) == {}
  {
  }

  lemma NothingAdded(cv: Table, cb: Table, conflicts: set<string>)
    ensures ValueAdded(cv, [], conflicts, cv)
    ensures BooleanAdded(cb, [], conflicts, cb)
  {
    NoFlags();
  }

  ghost predicate ValuesFor(rows: seq<Row>, done: set<string>, t: Table)
    requires WellFormed(rows)
  {
    forall g: string :: Get(t, g) ==
      if g in done then AllValue(EntriesOf(rows, g)) - Conflicts(EntriesOf(rows, g)) else {}
  }

  ghost predicate BooleansFor(rows: seq<Row>, done: set<string>, t: Table)
    requires WellFormed(rows)
  {
    forall g: string :: Get(t, g) ==
      if g in done then AllBoolean(EntriesOf(rows, g)) - Conflicts(EntriesOf(rows, g)) - GLOBAL_BOOLEAN else {}
  }

  ghost predicate ValueExceptionsFor(rows: seq<Row>, done: set<string>, t: Table)
    requires WellFormed(rows)
  {
    forall c: string, f: string :: f in Get(t, c) <==>
      exists g | g in done :: f in ValueOf(EntriesOf(rows, g), c) && f in Conflicts(EntriesOf(rows, g))
  }

  ghost predicate BooleanExceptionsFor(rows: seq<Row>, done: set<string>, t: Table)
    requires WellFormed(rows)
  {
    forall c: string, f: string :: f in Get(t, c) <==>
      exists g | g in done :: f in BooleanOf(EntriesOf(rows, g), c) && f in Conflicts(EntriesOf(rows, g))
  }

  ghost predicate FoldedFor(rows: seq<Row>, done: set<string>, t: Tables)
    requires WellFormed(rows)
  {
    && ValuesFor(rows, done, t.value)
    && BooleansFor(rows, done, t.boolean)
    && ValueExceptionsFor(rows, done, t.commandValue)
    && BooleanExceptionsFor(rows, done, t.commandBoolean)
  }

  lemma AllDone(rows: seq<Row>, done: set<string>, t: Tables)
    requires WellFormed(rows) && FoldedFor(rows, done, t) && forall g: string | g !in done :: EntriesOf(rows, g) == []
    ensures Folded(rows, t)
  {
    hide EntriesOf;
    NoFlags();
    forall c: string, f: string
      ensures f in Get(t.commandValue, c) <==> ExceptionValue(rows, c, f)
      ensures f in Get(t.commandBoolean, c) <==> ExceptionBoolean(rows, c, f)
    {
      assert forall g: string | g !in done ::
        ValueOf(EntriesOf(rows, g), c) == {} && BooleanOf(EntriesOf(rows, g), c) == {};
    }
  }

  lemma OneMoreGroup(rows: seq<Row>, done: set<string>, t: Tables, g: string, t': Tables)
    requires WellFormed(rows) && FoldedFor(rows, done, t) && g !in done
    requires var es := EntriesOf(rows, g);
      && t'.value == t.value[g := AllValue(es) - Conflicts(es)]
      && t'.boolean == t.boolean[g := AllBoolean(es) - Conflicts(es) - GLOBAL_BOOLEAN]
      && ValueAdded(t.commandValue, es, Conflicts(es), t'.commandValue)
      && BooleanAdded(t.commandBoolean, es, Conflicts(es), t'.commandBoolean)
    ensures FoldedFor(rows, done + {g}, t')
  {
    hide ValuesFor, BooleansFor, ValueExceptionsFor, BooleanExceptionsFor, ValueAdded, BooleanAdded;
    hide EntriesOf, AllValue, AllBoolean, Conflicts;
    MoreValues(rows, done, t.value, g);
    MoreBooleans(rows, done, t.boolean, g);
    MoreValueExceptions(rows, done, t.commandValue, g, t'.commandValue);
    MoreBooleanExceptions(rows, done, t.commandBoolean, g, t'.commandBoolean);
  }

  lemma MoreValues(rows: seq<Row>, done: set<string>, t: Table, g: string)
    requires WellFormed(rows) && ValuesFor(rows, done, t)
    ensures ValuesFor(rows, done + {g}, t[g := AllValue(EntriesOf(rows, g)) - Conflicts(EntriesOf(rows, g))])
  {
    hide EntriesOf, AllValue, Conflicts;
  }

  lemma MoreBooleans(rows: seq<Row>, done: set<string>, t: Table, g: string)
    requires WellFormed(rows) && BooleansFor(rows, done, t)
    ensures BooleansFor(rows, done + {g},
                        t[g := AllBoolean(EntriesOf(rows, g)) - Conflicts(EntriesOf(rows, g)) - GLOBAL_BOOLEAN])
  {
    hide EntriesOf, AllBoolean, Conflicts;
  }

  lemma MoreValueExceptions(rows: seq<Row>, done: set<string>, t: Table, g: string, t': Table)
    requires WellFormed(rows) && ValueExceptionsFor(rows, done, t)
    requires ValueAdded(t, EntriesOf(rows, g), Conflicts(EntriesOf(rows, g)), t')
    ensures ValueExceptionsFor(rows, done + {g}, t')
  {
    hide EntriesOf, ValueOf, Conflicts, Get;
  }

  lemma MoreBooleanExceptions(rows: seq<Row>, done: set<string>, t: Table, g: string, t': Table)
    requires WellFormed(rows) && BooleanExceptionsFor(rows, done, t)
    requires BooleanAdded(t, EntriesOf(rows, g), Conflicts(EntriesOf(rows, g)), t')
    ensures BooleanExceptionsFor(rows, done + {g}, t')
  {
    hide EntriesOf, BooleanOf, Conflicts, Get;
  }

  /** The four tables of the rows; None where the generator raises. */
  method Render(rows: seq<Row>) returns (r: Option<Tables>)
    requires WellFormed(rows)
    ensures r.None? <==> Ambiguous(rows)
    ensures r.Some? ==> Folded(rows, r.value)
  {
    hide EntriesOf, AllValue, AllBoolean, ValueOf, BooleanOf, Conflicts, Ambiguous, FoldedFor, ValueAdded, BooleanAdded;
    var groups := Grouped(rows);
    var t := Tables(map[], map[], map[], map[]);
    var left := groups.Keys;
    NothingFolded(rows, t);
    assert groups.Keys - left == {};
    while left != {}
      invariant left <= groups.Keys && FoldedFor(rows, groups.Keys - left, t)
      decreases left
    {
      var g :| g in left;
      var es := groups[g];
      assert es == EntriesOf(rows, g);
      var gv, gb := AllValue(es), AllBoolean(es);
      var conflicts := gv * gb;
      assert conflicts == Conflicts(es) by { ConflictsAre(es); }
      var cv, cb := FoldGroup(es, conflicts, t.commandValue, t.commandBoolean);
      var t' := Tables(t.value[g := gv - conflicts], t.boolean[g := gb - conflicts - GLOBAL_BOOLEAN], cv, cb);
      OneMoreGroup(rows, groups.Keys - left, t, g, t');
      assert groups.Keys - left + {g} == groups.Keys - (left - {g});
      t, left := t', left - {g};
    }
    assert groups.Keys - left == groups.Keys;
    AllDone(rows, groups.Keys, t);
    AmbiguousIff(rows);
    var clash := BothKinds(t);
    if clash {
      return None;
    }
    return Some(t);
  }

  lemma ConflictsAre(es: seq<Entry>)
    ensures Conflicts(es) == AllValue(es) * AllBoolean(es)
  {
  }

  lemma NothingFolded(rows: seq<Row>, t: Tables)
    requires WellFormed(rows) && t == Tables(map[], map[], map[], map[])
    ensures FoldedFor(rows, {}, t)
  {
  }

  /** Whether some command stands in both exception tables with one flag. */
  method BothKinds(t: Tables) returns (clash: bool)
    ensures clash <==> exists c: string, f: string :: f in Get(t.commandValue, c) && f in Get(t.commandBoolean, c)
  {
    var left := t.commandValue.Keys * t.commandBoolean.Keys;
    clash := false;
    while left != {}
      invariant left <= t.commandValue.Keys * t.commandBoolean.Keys
      invariant forall c: string | c !in left :: Get(t.commandValue, c) * Get(t.commandBoolean, c) == {}
      decreases left
    {
      var c :| c in left;
      var both := t.commandValue[c] * t.commandBoolean[c];
      assert both == Get(t.commandValue, c) * Get(t.commandBoolean, c);
      if both != {} {
        ghost var f :| f in both;
        assert f in Get(t.commandValue, c) && f in Get(t.commandBoolean, c);
        return true;
      }
      left := left - {c};
    }
    forall c: string, f: string ensures !(f in Get(t.commandValue, c) && f in Get(t.commandBoolean, c)) {
      Apart(Get(t.commandValue, c), Get(t.commandBoolean, c), f);
    }
  }

  lemma Apart(a: set<string>, b: set<string>, f: string)
    requires a * b == {}
    ensures !(f in a && f in b)
  {
    assert f in a * b <==> f in a && f in b;
  }
}
