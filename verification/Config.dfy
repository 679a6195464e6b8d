/** Texts that are taken apart when an app is set up and put together again when its configuration
    is shown: the command line and the environment. */
module Config {
  import opened Basics

  const SPACE := ' '

  const EQUALS := '='

  // The command

  /** The parts between single spaces. Repeated, leading and trailing spaces yield empty parts. */
  function Split(command: string): (parts: seq<string>)
    ensures parts != []
    ensures forall i :: 0 <= i < |parts| ==> SPACE !in parts[i]
  {
    match IndexOf(command, SPACE)
    case None => [command]
    case Some(i) => [command[..i]] + Split(command[i + 1..])
  }

  function Join(parts: seq<string>): string {
    if parts == [] then ""
    else if |parts| == 1 then parts[0]
    else parts[0] + [SPACE] + Join(parts[1..])
  }

  lemma SplitAt(command: string, n: nat)
    requires n < |command| && command[n] == SPACE && SPACE !in command[..n]
    ensures Split(command) == [command[..n]] + Split(command[n + 1..])
  {
    IndexIs(command, SPACE, n);
  }

  lemma SplitNothing(command: string)
    requires SPACE !in command
    ensures Split(command) == [command]
  {
  }

  lemma JoinMore(parts: seq<string>)
    requires |parts| > 1
    ensures Join(parts) == parts[0] + [SPACE] + Join(parts[1..])
  {
  }

  /** Joining the parts of any command gives the command back. */
  lemma {:induction false} JoinSplit(command: string)
    ensures Join(Split(command)) == command
    decreases |command|
  {
    hide Split;
    match IndexOf(command, SPACE)
    case None =>
      SplitNothing(command);
    case Some(i) =>
      SplitAt(command, i);
      JoinSplit(command[i + 1..]);
      JoinMore(Split(command));
  }

  lemma JoinPartsAt(first: string, rest: string)
    ensures var command := first + [SPACE] + rest;
            command[..|first|] == first && command[|first|] == SPACE && command[|first| + 1..] == rest
  {
  }

  /** No other parts without spaces join to the same command. */
  lemma {:induction false} SplitJoin(parts: seq<string>)
    requires parts != [] && forall i :: 0 <= i < |parts| ==> SPACE !in parts[i]
    ensures Split(Join(parts)) == parts
  {
    hide Split, IndexOf;
    if |parts| == 1 {
      SplitNothing(parts[0]);
    } else {
      JoinPartsAt(parts[0], Join(parts[1..]));
      JoinMore(parts);
      SplitAt(Join(parts), |parts[0]|);
      SplitJoin(parts[1..]);
    }
  }

  /** The text before a space and the text after it, put together, come apart at it again. */
  lemma SplitInCharacters(first: string, rest: string)
    requires ' ' !in first
    ensures Split(first + " " + rest) == [first] + Split(rest) && Split(first) == [first]
    ensures Join([first, rest]) == first + " " + rest
  {
    hide Split;
    JoinPartsAt(first, rest);
    SplitAt(first + " " + rest, |first|);
    SplitNothing(first);
    JoinMore([first, rest]);
    assert [first, rest][1..] == [rest];
  }

  // The environment

  type Env = map<string, string>

  function Format(key: string, value: string): string {
    key + [EQUALS] + value
  }

  /** The entries handed to the app, in whatever order the map gives up its keys. */
  function Entries(env: Env, order: seq<string>): (entries: seq<string>)
    requires forall k :: k in order ==> k in env
    ensures |entries| == |order|
  {
    seq(|order|, i requires 0 <= i < |order| => Format(order[i], env[order[i]]))
  }

  /** Key and value of an entry, parted at its first equals sign. */
  function SplitOnce(entry: string): (r: Option<(string, string)>)
    ensures r.None? <==> EQUALS !in entry
    ensures r.Some? ==> entry == Format(r.value.0, r.value.1) && EQUALS !in r.value.0
  {
    match IndexOf(entry, EQUALS)
    case None => None
    case Some(i) =>
      assert entry == entry[..i] + [EQUALS] + entry[i + 1..];
      Some((entry[..i], entry[i + 1..]))
  }

  /** The map some entries stand for; a later entry for the same key wins. */
  function Rebuilt(entries: seq<string>): Env {
    if entries == [] then map[]
    else
      var env := Rebuilt(entries[..|entries| - 1]);
      match SplitOnce(entries[|entries| - 1])
      case None => env
      case Some((key, value)) => env[key := value]
  }

  /** Rebuilds the environment from its entries. */
  method RebuildEnv(entries: seq<string>) returns (env: Env)
    ensures env == Rebuilt(entries)
  {
    env := map[];
    for i := 0 to |entries|
      invariant env == Rebuilt(entries[..i])
    {
      assert entries[..i + 1][..i] == entries[..i];
      var pair := SplitOnce(entries[i]);
      if pair.Some? {
        env := env[pair.value.0 := pair.value.1];
      }
    }
    assert entries[..|entries|] == entries;
  }

  /** A formatted entry parts into its own key and value exactly when the key has no equals sign. */
  lemma FormatParts(key: string, value: string)
    ensures SplitOnce(Format(key, value)) == Some((key, value)) <==> EQUALS !in key
  {
    var entry := Format(key, value);
    assert entry[..|key|] == key && entry[|key| + 1..] == value;
    if EQUALS !in key {
      IndexIs(entry, EQUALS, |key|);
    }
  }

  lemma KeyOfEntry(entry: string, key: string)
    requires '=' !in key
    ensures key + "=" <= entry <==> SplitOnce(entry).Some? && SplitOnce(entry).value.0 == key
    ensures key + "=" <= entry ==> entry == key + "=" + SplitOnce(entry).value.1
  {
    hide SplitOnce;
    if key + "=" <= entry {
      var value := entry[|key| + 1..];
      assert entry == key + "=" + value == Format(key, value);
      FormatParts(key, value);
    }
  }

  lemma {:induction false} RebuiltKeys(entries: seq<string>)
    ensures forall k :: k in Rebuilt(entries) ==> EQUALS !in k
  {
    if entries != [] {
      RebuiltKeys(entries[..|entries| - 1]);
    }
  }

  lemma {:induction false} RebuiltFrom(env: Env, order: seq<string>)
    requires forall k :: k in order ==> k in env && EQUALS !in k
    ensures Rebuilt(Entries(env, order)) == map k | k in order :: env[k]
  {
    hide SplitOnce, Format;
    if order != [] {
      var init, last := order[..|order| - 1], order[|order| - 1];
      RebuiltFrom(env, init);
      assert Entries(env, order)[..|init|] == Entries(env, init);
      FormatParts(last, env[last]);
    }
  }

  /** Of the entries that begin with a key and an equals sign, the last one says what its value is; without
      any, there is none. */
  lemma {:induction false} LastEntryWins(entries: seq<string>, key: string)
    requires '=' !in key
    ensures key in Rebuilt(entries) <==> exists i :: 0 <= i < |entries| && key + "=" <= entries[i]
    ensures forall i :: 0 <= i < |entries| && key + "=" <= entries[i]
                        && (forall j :: i < j < |entries| ==> !(key + "=" <= entries[j])) ==>
              key in Rebuilt(entries) && entries[i] == key + "=" + Rebuilt(entries)[key]
  {
    hide SplitOnce;
    if entries != [] {
      var n := |entries| - 1;
      LastEntryWins(entries[..n], key);
      KeyOfEntry(entries[n], key);
      assert forall j :: 0 <= j < n ==> entries[..n][j] == entries[j];
    }
  }

  /** Showing an environment shows it as it was configured, whatever the order of its entries, if
      and only if none of its keys contains an equals sign. */
  lemma EnvRoundTrip(env: Env, order: seq<string>)
    requires forall k :: k in order <==> k in env
    ensures Rebuilt(Entries(env, order)) == env <==> forall k :: k in env ==> EQUALS !in k
  {
    RebuiltKeys(Entries(env, order));
    if forall k :: k in env ==> EQUALS !in k {
      RebuiltFrom(env, order);
      assert (map k | k in order :: env[k]) == env;
    }
  }

  /** A key with an equals sign in it comes back as another key with another value. */
  lemma KeyWithEqualsSign()
    ensures Rebuilt(Entries(map["A=B" := "c"], ["A=B"])) == map["A" := "B=c"]
  {
    var entry := "A=B=c";
    assert Format("A=B", "c") == entry;
    IndexIs(entry, EQUALS, 1);
    assert Entries(map["A=B" := "c"], ["A=B"]) == [entry];
    var entries: seq<string> := [entry];
    assert entries[..0] == [];
    assert entry[..1] == "A" && entry[2..] == "B=c";
  }
}
