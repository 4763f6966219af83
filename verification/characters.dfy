/** The character commands: the fixed-width table `list_characters` and
    `delete_character` show, and the register-or-update step of `character`. */
module Characters {
  import opened Common
  import opened Text

  /** What the table shows of a stored character. */
  datatype ListedCharacter = ListedCharacter(name: string, className: string, itemLevel: int)

  const FENCE: string := "```"

  /** `n` copies of `c`. */
  function Fill(n: nat, c: char): string
  {
    seq(n, _ => c)
  }

  /** The column titles. */
  const HEADER: string := "Name" + Fill(11, ' ') + " " + "Class" + Fill(10, ' ') + "    " + "Item Level" + "\n"

  /** Dashes under each column. */
  const SEPARATOR: string := Fill(15, '-') + " " + Fill(15, '-') + "    " + Fill(10, '-') + "\n"

  /** The titles are the name and class titles padded to 15 and the item
      level title, as the header format lays them out. */
  lemma HeaderFormat()
    ensures HEADER == PadRight("Name", 15, ' ') + " " + PadRight("Class", 15, ' ') + "    " + "Item Level" + "\n"
  {
    assert PadRight("Name", 15, ' ') == "Name" + Fill(11, ' ');
    assert PadRight("Class", 15, ' ') == "Class" + Fill(10, ' ');
  }

  /** The separator is 15, 15 and 10 dashes, laid out like the header. */
  lemma SeparatorFormat()
    ensures SEPARATOR == PadRight("", 15, '-') + " " + PadRight("", 15, '-') + "    " + PadRight("", 10, '-') + "\n"
  {
    assert PadRight("", 15, '-') == Fill(15, '-');
    assert PadRight("", 10, '-') == Fill(10, '-');
  }

  /** One line per character: name and class padded to 15, the item level
      to 5. */
  function Row(c: ListedCharacter): string
  {
    PadRight(c.name, 15, ' ') + " " + PadRight(c.className, 15, ' ') + " -> "
    + PadRight(IntToString(c.itemLevel), 5, ' ') + " ilvl \n"
  }

  /** The texts of `xs` under `f`, concatenated in order. */
  function ConcatMap<T>(xs: seq<T>, f: T -> string): string
  {
    if xs == [] then "" else ConcatMap(xs[..|xs| - 1], f) + f(xs[|xs| - 1])
  }

  /** The whole table, between code fences: one row per character. */
  function CharacterList(cs: seq<ListedCharacter>): string
  {
    FENCE + HEADER + SEPARATOR + ConcatMap(cs, Row) + FENCE
  }

  /** The builder loop: each item's text pushed onto `s0`, in order. */
  method AppendEach<T>(s0: string, xs: seq<T>, f: T -> string) returns (s: string)
    ensures s == s0 + ConcatMap(xs, f)
  {
    s := s0;
    for i := 0 to |xs|
      invariant s == s0 + ConcatMap(xs[..i], f)
    {
      assert xs[..i + 1][..i] == xs[..i];
      s := s + f(xs[i]);
    }
    assert xs[..|xs|] == xs;
  }

  /** `construct_character_list`: the fence, the header, the separator, one
      row per character appended in order, and the closing fence. */
  method ConstructCharacterList(cs: seq<ListedCharacter>) returns (s: string)
    ensures s == CharacterList(cs)
  {
    s := FENCE;
    s := s + HEADER;
    s := s + SEPARATOR;
    s := AppendEach(s, cs, Row);
    s := s + FENCE;
  }

  /** The table opens and closes with a code fence. */
  lemma CharacterListFenced(cs: seq<ListedCharacter>)
    ensures StartsWith(CharacterList(cs), FENCE)
    ensures var s := CharacterList(cs); |s| >= 6 && s[|s| - 3..] == FENCE
  {
    Enclosed(FENCE, HEADER + SEPARATOR + ConcatMap(cs, Row));
  }

  lemma Enclosed(f: string, m: string)
    ensures StartsWith(f + m + f, f)
    ensures var s := f + m + f; s[|s| - |f|..] == f
  {
    var s := f + m + f;
    assert s[..|f|] == f;
    assert s[|s| - |f|..] == f;
  }

  /** An empty list gives the fences around the header and separator only. */
  lemma EmptyCharacterList()
    ensures CharacterList([]) == FENCE + HEADER + SEPARATOR + FENCE
  {
  }

  /** Each row starts with the name and shows the class from column 16;
      neither is truncated, and the row ends the line. */
  lemma RowLayout(c: ListedCharacter)
    ensures StartsWith(Row(c), c.name)
    ensures var n := if |c.name| >= 15 then |c.name| else 15;
      Row(c)[n] == ' ' && StartsWith(Row(c)[n + 1..], c.className)
    ensures Row(c)[|Row(c)| - 1] == '\n'
  {
    var n := if |c.name| >= 15 then |c.name| else 15;
    var p := PadRight(c.name, 15, ' ');
    var rest := PadRight(c.className, 15, ' ') + " -> " + PadRight(IntToString(c.itemLevel), 5, ' ') + " ilvl \n";
    assert Row(c) == p + " " + rest;
    assert Row(c)[..|c.name|] == p[..|c.name|];
    assert Row(c)[n + 1..] == rest;
    assert rest[..|c.className|] == PadRight(c.className, 15, ' ')[..|c.className|];
  }

  /** Text without line breaks. */
  predicate OneLine(s: string)
  {
    forall i :: 0 <= i < |s| ==> s[i] != '\n'
  }

  lemma {:induction false} CountAbsent(s: string, c: char)
    requires forall i :: 0 <= i < |s| ==> s[i] != c
    ensures Count(s, c) == 0
  {
    if s != [] {
      CountAbsent(s[1..], c);
    }
  }

  /** One line of text followed by a line break holds one line break. */
  lemma LastLineCount(body: string)
    requires OneLine(body)
    ensures Count(body + "\n", '\n') == 1
  {
    CountAbsent(body, '\n');
    CountAppend(body, "\n", '\n');
  }

  lemma PadRightOneLine(s: string, width: nat, fill: char)
    requires OneLine(s) && fill != '\n'
    ensures OneLine(PadRight(s, width, fill))
  {
    var r := PadRight(s, width, fill);
    forall i | 0 <= i < |r| ensures r[i] != '\n' {
      if i < |s| {
        assert r[i] == r[..|s|][i];
      }
    }
  }

  /** A row is exactly one line when the name and class are. */
  lemma RowIsOneLine(c: ListedCharacter)
    requires OneLine(c.name) && OneLine(c.className)
    ensures Count(Row(c), '\n') == 1
  {
    var lvl := IntToString(c.itemLevel);
    assert OneLine(lvl) by {
      if c.itemLevel < 0 {
        assert lvl == "-" + NatToString(-c.itemLevel);
      }
    }
    PadRightOneLine(c.name, 15, ' ');
    PadRightOneLine(c.className, 15, ' ');
    PadRightOneLine(lvl, 5, ' ');
    var body := PadRight(c.name, 15, ' ') + " " + PadRight(c.className, 15, ' ') + " -> "
                + PadRight(lvl, 5, ' ') + " ilvl ";
    assert OneLine(body);
    assert Row(c) == body + "\n";
    LastLineCount(body);
  }

  lemma {:induction false} RowsLines(cs: seq<ListedCharacter>)
    requires forall k :: 0 <= k < |cs| ==> OneLine(cs[k].name) && OneLine(cs[k].className)
    ensures Count(ConcatMap(cs, Row), '\n') == |cs|
  {
    if cs != [] {
      var init := cs[..|cs| - 1];
      RowsLines(init);
      RowIsOneLine(cs[|cs| - 1]);
      CountAppend(ConcatMap(init, Row), Row(cs[|cs| - 1]), '\n');
    }
  }

  lemma HeaderAndSeparatorLines()
    ensures Count(HEADER, '\n') == 1 && Count(SEPARATOR, '\n') == 1
  {
    var title := "Name" + Fill(11, ' ') + " " + "Class" + Fill(10, ' ') + "    " + "Item Level";
    assert OneLine(title);
    LastLineCount(title);
    var dashes := Fill(15, '-') + " " + Fill(15, '-') + "    " + Fill(10, '-');
    assert OneLine(dashes);
    LastLineCount(dashes);
  }

  /** With one-line names and classes the table has exactly one line per
      character besides the header and separator lines. */
  lemma CharacterListLines(cs: seq<ListedCharacter>)
    requires forall k :: 0 <= k < |cs| ==> OneLine(cs[k].name) && OneLine(cs[k].className)
    ensures Count(CharacterList(cs), '\n') == |cs| + 2
  {
    RowsLines(cs);
    HeaderAndSeparatorLines();
    assert Count(FENCE, '\n') == 0;
    var rows := ConcatMap(cs, Row);
    CountAppend(FENCE, HEADER, '\n');
    CountAppend(FENCE + HEADER, SEPARATOR, '\n');
    CountAppend(FENCE + HEADER + SEPARATOR, rows, '\n');
    CountAppend(FENCE + HEADER + SEPARATOR + rows, FENCE, '\n');
  }

  /** A stored character, keyed by its name: its owner, class and item
      level. */
  datatype StoredCharacter = StoredCharacter(owner: nat, className: string, itemLevel: int)

  /** The registered guildmates and the characters by name. */
  datatype CharacterStore = CharacterStore(guildmates: set<nat>, characters: map<string, StoredCharacter>)

  /** Whether each database call of `character` succeeds. */
  datatype CharacterEnv = CharacterEnv(
    guildmateLookupOk: bool,
    guildmateInsertOk: bool,
    characterLookupOk: bool,
    characterWriteOk: bool)

  datatype CharacterReply =
    | NotInGuild
    | GuildmateLookupFailed
    | CharacterLookupFailed
    | GuildmateInsertPanicked
    | CharacterWritePanicked
    | Updated
    | Added

  datatype Upsert = Upsert(reply: CharacterReply, store: CharacterStore)

  /** `character`: outside a guild nothing happens; the author is
      registered as a guildmate when missing (a failed insert panics); then
      the character with that name is updated (class and item level) when it
      exists, whoever owns it, and inserted for the author otherwise (a failed
      write panics). A failed lookup ends the command with a reply. */
  function UpsertCharacter(store: CharacterStore, guild: Option<nat>, author: nat,
                           name: string, className: string, itemLevel: int,
                           env: CharacterEnv): Upsert
  {
    if guild.None? then Upsert(NotInGuild, store)
    else if !env.guildmateLookupOk then Upsert(GuildmateLookupFailed, store)
    else if author !in store.guildmates && !env.guildmateInsertOk then Upsert(GuildmateInsertPanicked, store)
    else
      var registered := store.(guildmates := store.guildmates + {author});
      if !env.characterLookupOk then Upsert(CharacterLookupFailed, registered)
      else if !env.characterWriteOk then Upsert(CharacterWritePanicked, registered)
      else if name in store.characters then
        var old_ := store.characters[name];
        Upsert(Updated, registered.(characters := store.characters[name := old_.(className := className, itemLevel := itemLevel)]))
      else
        Upsert(Added, registered.(characters := store.characters[name := StoredCharacter(author, className, itemLevel)]))
  }

  /** When every call succeeds the command is an upsert by name: the name
      then holds the given class and item level, its owner is the previous
      owner if it existed and the author otherwise, the reply says which,
      the author is a guildmate, and no other character changes. */
  lemma UpsertByName(store: CharacterStore, guild: nat, author: nat,
                     name: string, className: string, itemLevel: int, env: CharacterEnv)
    requires env == CharacterEnv(true, true, true, true)
    ensures var u := UpsertCharacter(store, Some(guild), author, name, className, itemLevel, env);
      && (u.reply == Updated <==> name in store.characters)
      && (u.reply == Added <==> name !in store.characters)
      && u.store.guildmates == store.guildmates + {author}
      && u.store.characters.Keys == store.characters.Keys + {name}
      && u.store.characters[name] ==
           StoredCharacter(if name in store.characters then store.characters[name].owner else author,
                           className, itemLevel)
      && forall other :: other in store.characters && other != name ==>
           u.store.characters[other] == store.characters[other]
  {
  }

  /** Repeating the command changes nothing more: the second run only
      updates the entry to what it already holds. */
  lemma UpsertIdempotent(store: CharacterStore, guild: nat, author: nat,
                         name: string, className: string, itemLevel: int, env: CharacterEnv)
    requires env == CharacterEnv(true, true, true, true)
    ensures var once := UpsertCharacter(store, Some(guild), author, name, className, itemLevel, env);
      var twice := UpsertCharacter(once.store, Some(guild), author, name, className, itemLevel, env);
      twice == Upsert(Updated, once.store)
  {
    var once := UpsertCharacter(store, Some(guild), author, name, className, itemLevel, env);
    var twice := UpsertCharacter(once.store, Some(guild), author, name, className, itemLevel, env);
    assert once.store.guildmates + {author} == once.store.guildmates;
    assert once.store.characters[name := once.store.characters[name]] == once.store.characters;
  }

  /** A failure leaves the characters as they were, and a failed guildmate
      insert panics before anything is written. */
  lemma FailedUpsertKeepsCharacters(store: CharacterStore, guild: Option<nat>, author: nat,
                                    name: string, className: string, itemLevel: int, env: CharacterEnv)
    ensures var u := UpsertCharacter(store, guild, author, name, className, itemLevel, env);
      && (!(u.reply == Updated || u.reply == Added) ==> u.store.characters == store.characters)
      && (u.reply == GuildmateInsertPanicked <==>
            guild.Some? && env.guildmateLookupOk && author !in store.guildmates && !env.guildmateInsertOk)
      && (u.reply == GuildmateInsertPanicked ==> u.store == store)
  {
  }
}
