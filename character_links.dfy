/** The multi-character link list of the `/link` and `/unlink` commands of the
    statistics cog (Link): per (guild, user), the list of in-game character
    names linked to that Discord account. The stored record is modelled as a
    map from the key to its `linked_characters` list. */
module CharacterLinks {
  import opened PyBase

  const MinNameLength: int := 3
  const MaxNameLength: int := 24

  /** (guild_id, user_id); the guild id is 0 outside a guild. */
  type LinkKey = (int, int)

  type LinkTable = map<LinkKey, seq<string>>

  /** `ctx.guild.id if ctx.guild else 0` */
  function KeyOf(guild: Option<int>, user: int): LinkKey
  {
    (if guild.Some? then guild.value else 0, user)
  }

  datatype LinkOutcome = InvalidLength | AlreadyLinked | Appended | Created

  datatype UnlinkOutcome = NoLinks | NotLinked | Unlinked

  predicate NoDuplicates(s: seq<string>)
  {
    forall i, j :: 0 <= i < j < |s| ==> s[i] != s[j]
  }

  /** A name as the link command stores it: 3 to 24 characters, with no
      whitespace at either end. */
  predicate StoredName(n: string)
  {
    MinNameLength <= |n| <= MaxNameLength && !IsSpace(n[0]) && !IsSpace(n[|n| - 1])
  }

  /** A non-empty, duplicate-free list of stored names. */
  predicate ValidList(s: seq<string>)
  {
    s != [] && NoDuplicates(s) && (forall i :: 0 <= i < |s| ==> StoredName(s[i]))
  }

  /** Every record holds a valid list. */
  predicate ValidTable(links: LinkTable)
  {
    forall k :: k in links ==> ValidList(links[k])
  }

  /** `list.remove(x)`: drop the first occurrence of `x`. */
  function RemoveFirst(s: seq<string>, x: string): (r: seq<string>)
    requires x in s
    ensures |r| == |s| - 1
    ensures multiset(r) == multiset(s) - multiset{x}
  {
    if s[0] == x then
      assert s == [s[0]] + s[1..];
      s[1..]
    else
      assert s == [s[0]] + s[1..];
      [s[0]] + RemoveFirst(s[1..], x)
  }

  /** Removing a name from a duplicate-free list removes it entirely, keeps
      every other name, and keeps the list duplicate-free. */
  lemma RemoveFirstNoDuplicates(s: seq<string>, x: string)
    requires x in s && NoDuplicates(s)
    ensures x !in RemoveFirst(s, x)
    ensures forall n :: n in RemoveFirst(s, x) <==> n in s && n != x
    ensures NoDuplicates(RemoveFirst(s, x))
  {
    var r := RemoveFirst(s, x);
    assert multiset(s)[x] == 1 by {
      var i :| 0 <= i < |s| && s[i] == x;
      CountOne(s, i);
    }
    assert multiset(r)[x] == 0;
    forall n
      ensures n in r <==> n in s && n != x
    {
      assert n in r <==> multiset(r)[n] > 0;
      assert n in s <==> multiset(s)[n] > 0;
    }
    forall i, j | 0 <= i < j < |r|
      ensures r[i] != r[j]
    {
      if r[i] == r[j] {
        PairCount(r, i, j);
        assert multiset(s)[r[i]] >= 2;
        var k :| 0 <= k < |s| && s[k] == r[i];
        CountOne(s, k);
        assert false;
      }
    }
  }

  /** In a duplicate-free list every element occurs once. */
  lemma {:induction false} CountOne(s: seq<string>, i: int)
    requires NoDuplicates(s) && 0 <= i < |s|
    ensures multiset(s)[s[i]] == 1
  {
    if |s| == 1 {
    } else if i == |s| - 1 {
      var p := s[..|s| - 1];
      assert s == p + [s[i]];
      assert s[i] !in p;
      assert multiset(p)[s[i]] == 0;
    } else {
      var p := s[..|s| - 1];
      assert s == p + [s[|s| - 1]];
      assert NoDuplicates(p);
      CountOne(p, i);
      assert p[i] == s[i] && s[|s| - 1] != s[i];
    }
  }

  /** Two equal entries make a count of at least two. */
  lemma PairCount(s: seq<string>, i: int, j: int)
    requires 0 <= i < j < |s| && s[i] == s[j]
    ensures multiset(s)[s[i]] >= 2
  {
    assert s == s[..j] + [s[j]] + s[j + 1..];
    assert s[i] in s[..j];
    assert multiset(s[..j])[s[i]] >= 1;
  }

  /** The effect of `/link` on the table: the stripped name must have 3 to 24
      characters and must not be linked yet; it is then appended to the
      user's list, or a one-name record is created. */
  function LinkStep(links: LinkTable, key: LinkKey, name: string): (LinkOutcome, LinkTable)
  {
    var cleaned := Strip(name);
    if !(MinNameLength <= |cleaned| <= MaxNameLength) then (InvalidLength, links)
    else if key in links then
      if cleaned in links[key] then (AlreadyLinked, links)
      else (Appended, links[key := links[key] + [cleaned]])
    else (Created, links[key := [cleaned]])
  }

  /** The effect of `/unlink` on the table: the stripped name must be in the
      user's list; it is removed, and the record goes when the list empties. */
  function UnlinkStep(links: LinkTable, key: LinkKey, name: string): (UnlinkOutcome, LinkTable)
  {
    var cleaned := Strip(name);
    if key !in links then (NoLinks, links)
    else if cleaned !in links[key] then (NotLinked, links)
    else
      var rest := RemoveFirst(links[key], cleaned);
      if rest != [] then (Unlinked, links[key := rest]) else (Unlinked, links - {key})
  }

  /** What `/link` does: the outcome and the new table, stated on all inputs. */
  lemma LinkStepSpec(links: LinkTable, key: LinkKey, name: string)
    ensures var (r, after) := LinkStep(links, key, name);
      var cleaned := Strip(name);
      && (r == InvalidLength <==> !(MinNameLength <= |cleaned| <= MaxNameLength))
      && (r == AlreadyLinked <==>
            MinNameLength <= |cleaned| <= MaxNameLength && key in links && cleaned in links[key])
      && (r == Created <==> MinNameLength <= |cleaned| <= MaxNameLength && key !in links)
      && (r == Appended ==> after == links[key := links[key] + [cleaned]])
      && (r == Created ==> after == links[key := [cleaned]])
      && (r == InvalidLength || r == AlreadyLinked ==> after == links)
      && (forall k :: k != key ==> (k in after <==> k in links) && (k in links ==> after[k] == links[k]))
  {
  }

  /** What `/unlink` does on a valid table: the outcome, and that only the
      named character leaves the user's list, the record going when it was the
      last one; other keys are unchanged. */
  lemma UnlinkStepSpec(links: LinkTable, key: LinkKey, name: string)
    requires ValidTable(links)
    ensures var (r, after) := UnlinkStep(links, key, name);
      var cleaned := Strip(name);
      && (r == NoLinks <==> key !in links)
      && (r == NotLinked <==> key in links && cleaned !in links[key])
      && (r != Unlinked ==> after == links)
      && (r == Unlinked ==> (key in after <==> links[key] != [cleaned]))
      && (r == Unlinked && key in after ==>
            forall n :: n in after[key] <==> n in links[key] && n != cleaned)
      && (forall k :: k != key ==> (k in after <==> k in links) && (k in links ==> after[k] == links[k]))
  {
    UnlinkOutcomes(links, key, name);
    if key in links {
      assert ValidList(links[key]);
    }
    UnlinkRemovesName(links, key, name);
  }

  lemma UnlinkOutcomes(links: LinkTable, key: LinkKey, name: string)
    ensures var (r, after) := UnlinkStep(links, key, name);
      var cleaned := Strip(name);
      && (r == NoLinks <==> key !in links)
      && (r == NotLinked <==> key in links && cleaned !in links[key])
      && (r != Unlinked ==> after == links)
      && (forall k :: k != key ==> (k in after <==> k in links) && (k in links ==> after[k] == links[k]))
  {
  }

  lemma UnlinkRemovesName(links: LinkTable, key: LinkKey, name: string)
    requires key in links ==> ValidList(links[key])
    ensures var (r, after) := UnlinkStep(links, key, name);
      var cleaned := Strip(name);
      && (r == Unlinked ==> (key in after <==> links[key] != [cleaned]))
      && (r == Unlinked && key in after ==>
            forall n :: n in after[key] <==> n in links[key] && n != cleaned)
  {
    var cleaned := Strip(name);
    if key in links && cleaned in links[key] {
      var rest := RemoveFirst(links[key], cleaned);
      RemovedFromValid(links[key], cleaned);
      if rest != [] {
        assert UnlinkStep(links, key, name).1 == links[key := rest];
      } else {
        assert UnlinkStep(links, key, name).1 == links - {key};
      }
    }
  }

  /** Removing a name from a valid list keeps every other name and empties
      the list exactly when the name was its only one. */
  lemma RemovedFromValid(s: seq<string>, x: string)
    requires ValidList(s) && x in s
    ensures RemoveFirst(s, x) == [] <==> s == [x]
    ensures forall n :: n in RemoveFirst(s, x) <==> n in s && n != x
  {
    RemoveFirstNoDuplicates(s, x);
    if RemoveFirst(s, x) == [] {
      assert |s| == 1 && s == [s[0]];
    }
  }

  /** `/link` keeps every list non-empty, duplicate-free and made of stored names. */
  lemma LinkKeepsValid(links: LinkTable, key: LinkKey, name: string)
    requires ValidTable(links)
    ensures ValidTable(LinkStep(links, key, name).1)
  {
    var cleaned := Strip(name);
    StripSpec(name);
    var (r, after) := LinkStep(links, key, name);
    if r == Appended {
      AppendValid(links[key], cleaned);
    } else if r == Created {
      assert ValidList([cleaned]);
    }
  }

  lemma AppendValid(s: seq<string>, x: string)
    requires ValidList(s) && StoredName(x) && x !in s
    ensures ValidList(s + [x])
  {
    var t := s + [x];
    forall i, j | 0 <= i < j < |t|
      ensures t[i] != t[j]
    {
      if j == |s| {
        assert t[i] == s[i];
      } else {
        assert t[i] == s[i] && t[j] == s[j];
      }
    }
    forall i | 0 <= i < |t|
      ensures StoredName(t[i])
    {
      if i < |s| {
        assert t[i] == s[i];
      }
    }
  }

  /** `/unlink` keeps every list non-empty, duplicate-free and made of stored
      names, and a successful unlink leaves the name linked no more. */
  lemma UnlinkKeepsValid(links: LinkTable, key: LinkKey, name: string)
    requires ValidTable(links)
    ensures ValidTable(UnlinkStep(links, key, name).1)
    ensures UnlinkStep(links, key, name).0 == Unlinked ==>
      var after := UnlinkStep(links, key, name).1;
      key !in after || Strip(name) !in after[key]
  {
    var cleaned := Strip(name);
    var after := UnlinkStep(links, key, name).1;
    if key in links && cleaned in links[key] {
      var rest := RemoveFirst(links[key], cleaned);
      RemovedListValid(links[key], cleaned);
      if rest != [] {
        assert after == links[key := rest];
        UpdatedTableValid(links, key, rest);
      } else {
        assert after == links - {key};
        RemovedKeyValid(links, key);
      }
    }
  }

  lemma UpdatedTableValid(links: LinkTable, key: LinkKey, s: seq<string>)
    requires ValidTable(links) && ValidList(s)
    ensures ValidTable(links[key := s])
  {
  }

  lemma RemovedKeyValid(links: LinkTable, key: LinkKey)
    requires ValidTable(links)
    ensures ValidTable(links - {key})
  {
  }

  /** Removing a name from a valid list removes it entirely and leaves a valid
      list unless nothing is left. */
  lemma RemovedListValid(s: seq<string>, x: string)
    requires ValidList(s) && x in s
    ensures x !in RemoveFirst(s, x)
    ensures RemoveFirst(s, x) != [] ==> ValidList(RemoveFirst(s, x))
  {
    var rest := RemoveFirst(s, x);
    RemoveFirstNoDuplicates(s, x);
    forall i | 0 <= i < |rest|
      ensures StoredName(rest[i])
    {
      assert rest[i] in s;
    }
  }

  /** Linking a new name and then unlinking it returns the table to its prior
      state, whether the link created the record or appended to it. */
  lemma LinkThenUnlink(links: LinkTable, key: LinkKey, name: string)
    requires ValidTable(links)
    requires LinkStep(links, key, name).0 == Appended || LinkStep(links, key, name).0 == Created
    ensures UnlinkStep(LinkStep(links, key, name).1, key, name) == (Unlinked, links)
  {
    if key in links {
      AppendThenUnlink(links, key, name);
    } else {
      CreateThenUnlink(links, key, name);
    }
  }

  lemma AppendThenUnlink(links: LinkTable, key: LinkKey, name: string)
    requires ValidTable(links) && key in links
    requires LinkStep(links, key, name).0 == Appended
    ensures UnlinkStep(LinkStep(links, key, name).1, key, name) == (Unlinked, links)
  {
    var cleaned := Strip(name);
    var prior := links[key];
    var after := links[key := prior + [cleaned]];
    assert ValidList(prior);
    assert cleaned !in prior && LinkStep(links, key, name).1 == after;
    RemoveAppended(links, key, cleaned);
    assert UnlinkStep(after, key, name) == (Unlinked, after[key := prior]);
  }

  /** Removing a name just appended to a non-empty list restores the table. */
  lemma RemoveAppended(links: LinkTable, key: LinkKey, cleaned: string)
    requires key in links && links[key] != [] && cleaned !in links[key]
    ensures var after := links[key := links[key] + [cleaned]];
      && cleaned in after[key]
      && RemoveFirst(after[key], cleaned) == links[key]
      && after[key := links[key]] == links
  {
    var prior := links[key];
    var after := links[key := prior + [cleaned]];
    RemoveFirstAppended(prior, cleaned);
    assert after[key] == prior + [cleaned];
  }

  lemma CreateThenUnlink(links: LinkTable, key: LinkKey, name: string)
    requires key !in links
    requires LinkStep(links, key, name).0 == Created
    ensures UnlinkStep(LinkStep(links, key, name).1, key, name) == (Unlinked, links)
  {
    var cleaned := Strip(name);
    var after := links[key := [cleaned]];
    assert LinkStep(links, key, name).1 == after;
    assert RemoveFirst(after[key], cleaned) == [];
    assert after - {key} == links;
  }

  lemma {:induction false} RemoveFirstAppended(s: seq<string>, x: string)
    requires x !in s
    ensures RemoveFirst(s + [x], x) == s
  {
    if s != [] {
      assert (s + [x])[1..] == s[1..] + [x];
      RemoveFirstAppended(s[1..], x);
      assert [s[0]] + s[1..] == s;
    }
  }

  class Link {
    var links: LinkTable

    /** Every stored list is a valid one: the table is written only by the
        two commands below. */
    ghost predicate Valid()
      reads this
    {
      ValidTable(links)
    }

    constructor (initial: LinkTable)
      requires ValidTable(initial)
      ensures links == initial
      ensures Valid()
    {
      links := initial;
    }

    /** `/link`: the outcome and the new table are those LinkStep gives. */
    method LinkCharacter(guild: Option<int>, user: int, characterName: string)
      returns (r: LinkOutcome)
      requires Valid()
      modifies this
      ensures (r, links) == LinkStep(old(links), KeyOf(guild, user), characterName)
      ensures Valid()
    {
      LinkKeepsValid(links, KeyOf(guild, user), characterName);
      var key := KeyOf(guild, user);
      var cleaned := Strip(characterName);
      if !(MinNameLength <= |cleaned| <= MaxNameLength) {
        return InvalidLength;
      }
      if key in links {
        var existing := links[key];
        if cleaned in existing {
          return AlreadyLinked;
        }
        existing := existing + [cleaned];
        links := links[key := existing];
        r := Appended;
      } else {
        links := links[key := [cleaned]];
        r := Created;
      }
    }

    /** `/unlink`: the outcome and the new table are those UnlinkStep gives. */
    method UnlinkCharacter(guild: Option<int>, user: int, characterName: string)
      returns (r: UnlinkOutcome)
      requires Valid()
      modifies this
      ensures (r, links) == UnlinkStep(old(links), KeyOf(guild, user), characterName)
      ensures Valid()
    {
      UnlinkKeepsValid(links, KeyOf(guild, user), characterName);
      var key := KeyOf(guild, user);
      var cleaned := Strip(characterName);
      if key !in links {
        return NoLinks;
      }
      var existing := links[key];
      if cleaned !in existing {
        return NotLinked;
      }
      existing := RemoveFirst(existing, cleaned);
      if existing != [] {
        links := links[key := existing];
      } else {
        links := links - {key};
      }
      r := Unlinked;
    }
  }
}
