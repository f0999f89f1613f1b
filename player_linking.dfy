/** The single-name player link table of the linking cog (Linking): at most
    one player name per (guild, user), created by `/link` and removed by
    `/unlink`. The stored records are modelled as a map from the key to the
    stored name. */
module PlayerLinking {
  import opened PyBase

  const MinNameLength: int := 3

  /** (ctx.guild_id, ctx.user.id); the guild id is None outside a guild. */
  type PlayerKey = (Option<int>, int)

  type PlayerTable = map<PlayerKey, string>

  datatype LinkOutcome = DatabaseUnavailable | NameTooShort | AlreadyLinked | Linked(name: string)

  datatype UnlinkOutcome = UnlinkDatabaseUnavailable | NoLink | Unlinked

  /** The effect of `/link`: refused without a database manager, for an empty
      name or one shorter than three characters once stripped, and when a link
      already exists; otherwise the stripped name is stored under the key. */
  function LinkStep(links: PlayerTable, dbPresent: bool, key: PlayerKey, playerName: string)
    : (LinkOutcome, PlayerTable)
  {
    if !dbPresent then (DatabaseUnavailable, links)
    else if playerName == [] || |Strip(playerName)| < MinNameLength then (NameTooShort, links)
    else if key in links then (AlreadyLinked, links)
    else (Linked(Strip(playerName)), links[key := Strip(playerName)])
  }

  /** The effect of `/unlink`: refused without a database manager or when no
      link exists; otherwise exactly that key is removed. */
  function UnlinkStep(links: PlayerTable, dbPresent: bool, key: PlayerKey): (UnlinkOutcome, PlayerTable)
  {
    if !dbPresent then (UnlinkDatabaseUnavailable, links)
    else if key !in links then (NoLink, links)
    else (Unlinked, links - {key})
  }

  /** `/link` on all inputs: which refusal happens when, that an existing
      link is never overwritten, that there is no upper length bound, and that
      a success stores the stripped name under the key and nothing else. */
  lemma LinkStepSpec(links: PlayerTable, dbPresent: bool, key: PlayerKey, playerName: string)
    ensures var (r, after) := LinkStep(links, dbPresent, key, playerName);
      && (r == DatabaseUnavailable <==> !dbPresent)
      && (r == NameTooShort <==> dbPresent && |Strip(playerName)| < MinNameLength)
      && (r == AlreadyLinked <==> dbPresent && |Strip(playerName)| >= MinNameLength && key in links)
      && (r.Linked? <==> dbPresent && |Strip(playerName)| >= MinNameLength && key !in links)
      && (!r.Linked? ==> after == links)
      && (r.Linked? ==> r.name == Strip(playerName) && after[key] == Strip(playerName)
                        && |r.name| >= MinNameLength)
      && (key in links ==> key in after && after[key] == links[key])
      && (forall k :: k != key ==> (k in after <==> k in links) && (k in links ==> after[k] == links[k]))
  {
    if playerName == [] {
      StripSpec(playerName);
    }
  }

  /** `/unlink` on all inputs: refusals and the removal of exactly one key. */
  lemma UnlinkStepSpec(links: PlayerTable, dbPresent: bool, key: PlayerKey)
    ensures var (r, after) := UnlinkStep(links, dbPresent, key);
      && (r == UnlinkDatabaseUnavailable <==> !dbPresent)
      && (r == NoLink <==> dbPresent && key !in links)
      && (r == Unlinked <==> dbPresent && key in links)
      && (r != Unlinked ==> after == links)
      && (r == Unlinked ==> key !in after)
      && (forall k :: k != key ==> (k in after <==> k in links) && (k in links ==> after[k] == links[k]))
  {
  }

  /** On a key with no link, a successful `/link` followed by `/unlink`
      returns the table to its prior state. */
  lemma LinkThenUnlink(links: PlayerTable, key: PlayerKey, playerName: string)
    requires LinkStep(links, true, key, playerName).0.Linked?
    ensures UnlinkStep(LinkStep(links, true, key, playerName).1, true, key) == (Unlinked, links)
  {
    var after := LinkStep(links, true, key, playerName).1;
    assert after - {key} == links;
  }

  class Linking {
    var links: PlayerTable

    constructor (initial: PlayerTable)
      ensures links == initial
    {
      links := initial;
    }

    /** `/link`: the outcome and the new table are those LinkStep gives. */
    method Link(dbPresent: bool, guildId: Option<int>, userId: int, playerName: string)
      returns (r: LinkOutcome)
      modifies this
      ensures (r, links) == LinkStep(old(links), dbPresent, (guildId, userId), playerName)
    {
      if !dbPresent {
        return DatabaseUnavailable;
      }
      if playerName == [] || |Strip(playerName)| < MinNameLength {
        return NameTooShort;
      }
      var key := (guildId, userId);
      if key in links {
        return AlreadyLinked;
      }
      links := links[key := Strip(playerName)];
      r := Linked(Strip(playerName));
    }

    /** `/unlink`: the outcome and the new table are those UnlinkStep gives. */
    method Unlink(dbPresent: bool, guildId: Option<int>, userId: int) returns (r: UnlinkOutcome)
      modifies this
      ensures (r, links) == UnlinkStep(old(links), dbPresent, (guildId, userId))
    {
      if !dbPresent {
        return UnlinkDatabaseUnavailable;
      }
      var key := (guildId, userId);
      if key !in links {
        return NoLink;
      }
      links := links - {key};
      r := Unlinked;
    }
  }
}
