/** The import hook that keeps discord.py out while letting py-cord load
    (DiscordPyBlocker): a meta path finder that lets the normal machinery
    handle every module name starting with an allowed entry, refuses names
    containing a blocked entry, and defers on everything else. */
module ImportBlocker {
  import opened PyBase

  /** The two name sets the finder is built with; nothing changes them after. */
  datatype DiscordPyBlocker = DiscordPyBlocker(blockedModules: set<string>, allowedModules: set<string>)

  /** The finder as `__init__` builds it. */
  function Initial(): (b: DiscordPyBlocker)
  {
    DiscordPyBlocker(
      {"discord.py", "discord_py"},
      {"discord", "discord.ext", "discord.ext.commands", "discord.ext.bridge",
       "discord.ext.pages", "discord.ext.menus", "discord.ext.tasks", "discord.ui",
       "discord.utils", "discord.voice_client", "discord.webhook"})
  }

  /** What `find_spec` does: return None, so the next finder is asked, or
      raise ImportError with the given message. */
  datatype FindResult = Defer | Refuse(message: string)

  /** `sub in s` for strings. */
  predicate Contains(s: string, sub: string)
    decreases |s|
  {
    sub <= s || (|s| > 0 && Contains(s[1..], sub))
  }

  /** `sub in s` holds exactly when `sub` starts at some position of `s`. */
  lemma ContainsAt(s: string, sub: string)
    ensures Contains(s, sub) <==> exists i :: 0 <= i <= |s| && sub <= s[i..]
  {
    if Contains(s, sub) {
      var i := ContainsWitness(s, sub);
    }
    if exists i :: 0 <= i <= |s| && sub <= s[i..] {
      var i :| 0 <= i <= |s| && sub <= s[i..];
      ContainsFrom(s, sub, i);
    }
  }

  /** An occurrence at position `i` makes `sub in s` true. */
  lemma {:induction false} ContainsFrom(s: string, sub: string, i: int)
    requires 0 <= i <= |s| && sub <= s[i..]
    ensures Contains(s, sub)
    decreases i
  {
    if i > 0 {
      assert s[1..][i - 1..] == s[i..];
      ContainsFrom(s[1..], sub, i - 1);
    } else {
      assert s[i..] == s;
    }
  }

  /** Where `sub` occurs when `sub in s` holds. */
  lemma {:induction false} ContainsWitness(s: string, sub: string) returns (i: int)
    requires Contains(s, sub)
    ensures 0 <= i <= |s| && sub <= s[i..]
    decreases |s|
  {
    if sub <= s {
      i := 0;
      assert s[i..] == s;
    } else {
      var j := ContainsWitness(s[1..], sub);
      i := j + 1;
      assert s[1..][j..] == s[i..];
    }
  }

  predicate HasAllowedPrefix(b: DiscordPyBlocker, fullname: string)
  {
    exists allowed :: allowed in b.allowedModules && allowed <= fullname
  }

  predicate HasBlockedPart(b: DiscordPyBlocker, fullname: string)
  {
    exists blocked :: blocked in b.blockedModules && Contains(fullname, blocked)
  }

  /** `find_spec(fullname, path, target)` */
  function FindSpec(b: DiscordPyBlocker, fullname: string, path: PyValue, target: PyValue): FindResult
  {
    if HasAllowedPrefix(b, fullname) then Defer
    else if HasBlockedPart(b, fullname) then
      Refuse("discord.py import '" + fullname + "' blocked. Use py-cord 2.6.1 instead: pip install py-cord==2.6.1")
    else Defer
  }

  /** `create_module`: None, so the default module creation is used. */
  function CreateModule(b: DiscordPyBlocker, spec: PyValue): Option<PyValue>
  {
    None
  }

  /** For any finder: a name with an allowed prefix is let through; a refusal
      names the module and happens exactly for names with no allowed prefix
      that contain a blocked entry; `path` and `target` play no part. */
  lemma FindSpecSpec(b: DiscordPyBlocker, fullname: string, path: PyValue, target: PyValue,
                     path2: PyValue, target2: PyValue)
    ensures HasAllowedPrefix(b, fullname) ==> FindSpec(b, fullname, path, target) == Defer
    ensures FindSpec(b, fullname, path, target).Refuse? <==>
      !HasAllowedPrefix(b, fullname) && HasBlockedPart(b, fullname)
    ensures FindSpec(b, fullname, path, target).Refuse? ==>
      fullname <= FindSpec(b, fullname, path, target).message[19..]
    ensures FindSpec(b, fullname, path, target) == FindSpec(b, fullname, path2, target2)
  {
    var msg := "discord.py import '" + fullname + "' blocked. Use py-cord 2.6.1 instead: pip install py-cord==2.6.1";
    assert msg[19..] == fullname + "' blocked. Use py-cord 2.6.1 instead: pip install py-cord==2.6.1";
  }

  /** Every allowed entry of the initial finder begins with "discord", so a
      name has an allowed prefix exactly when it begins with "discord". */
  lemma AllowedMeansDiscordPrefix(fullname: string)
    ensures HasAllowedPrefix(Initial(), fullname) <==> "discord" <= fullname
  {
    if "discord" <= fullname {
      assert "discord" in Initial().allowedModules;
    }
    if HasAllowedPrefix(Initial(), fullname) {
      var a :| a in Initial().allowedModules && a <= fullname;
      assert "discord" <= a;
    }
  }

  /** The initial finder's blocked entries are "discord.py" and "discord_py". */
  lemma InitialBlockedParts(fullname: string)
    ensures HasBlockedPart(Initial(), fullname) <==>
      Contains(fullname, "discord.py") || Contains(fullname, "discord_py")
  {
    var blocked := Initial().blockedModules;
    assert blocked == {"discord.py", "discord_py"};
    if Contains(fullname, "discord.py") {
      assert "discord.py" in blocked;
    }
    if Contains(fullname, "discord_py") {
      assert "discord_py" in blocked;
    }
  }

  /** With the initial sets, a name is refused exactly when it does not begin
      with "discord" and contains "discord.py" or "discord_py". */
  lemma InitialFindSpec(fullname: string, path: PyValue, target: PyValue)
    ensures FindSpec(Initial(), fullname, path, target).Refuse? <==>
      !("discord" <= fullname) && (Contains(fullname, "discord.py") || Contains(fullname, "discord_py"))
  {
    AllowedMeansDiscordPrefix(fullname);
    InitialBlockedParts(fullname);
  }

  /** The block branch is unreachable for "discord.py" and "discord_py"
      themselves, while a name carrying "discord_py" after another prefix is
      refused. */
  lemma BlockerExamples(path: PyValue, target: PyValue)
    ensures FindSpec(Initial(), "discord.py", path, target) == Defer
    ensures FindSpec(Initial(), "discord_py", path, target) == Defer
    ensures FindSpec(Initial(), "x.discord_py", path, target).Refuse?
  {
    AllowedMeansDiscordPrefix("discord.py");
    AllowedMeansDiscordPrefix("discord_py");
    var n := "x.discord_py";
    assert "discord_py" <= n[2..];
    ContainsAt(n, "discord_py");
    assert Contains(n, "discord_py");
    assert n[0] != "discord"[0];
    InitialFindSpec(n, path, target);
  }
}
