/** The command-executor proxy: it decides once, from the user name and
    password, whether its user is the administrator, and then forwards
    every command of the administrator and every command of anyone else
    that does not start with "rm" once surrounding blanks are cut off. */
module Proxy {

  /** The characters String.trim cuts: every code point up to U+0020. */
  predicate Blank(c: char)
  {
    c <= ' '
  }

  /** Cuts leading blanks. */
  function TrimStart(s: string): (r: string)
    ensures |r| <= |s| && r == s[|s| - |r|..]
    ensures r == [] || !Blank(r[0])
    ensures forall k :: 0 <= k < |s| - |r| ==> Blank(s[k])
  {
    if s != [] && Blank(s[0]) then TrimStart(s[1..]) else s
  }

  /** Cuts trailing blanks. */
  function TrimEnd(s: string): (r: string)
    ensures |r| <= |s| && r == s[..|r|]
    ensures r == [] || !Blank(r[|r| - 1])
    ensures forall k :: |r| <= k < |s| ==> Blank(s[k])
  {
    if s != [] && Blank(s[|s| - 1]) then TrimEnd(s[..|s| - 1]) else s
  }

  /** String.trim. */
  function Trim(s: string): string
  {
    TrimEnd(TrimStart(s))
  }

  /** What trim returns: a stretch of `s` that neither starts nor ends with
      a blank, and everything cut off around it is blank. */
  lemma TrimSlice(s: string)
    ensures var r := Trim(s);
      (r == [] || (!Blank(r[0]) && !Blank(r[|r| - 1])))
      && exists i :: 0 <= i <= |s| - |r| && r == s[i..i + |r|] && AllBlank(s[..i]) && AllBlank(s[i + |r|..])
  {
    var u := TrimStart(s);
    var i := |s| - |u|;
    var r := TrimEnd(u);
    assert r == s[i..i + |r|];
    assert AllBlank(s[..i]);
    TrimEndTail(s, u, i, r);
  }

  lemma TrimEndTail(s: string, u: string, i: nat, r: string)
    requires i <= |s| && u == s[i..] && r == TrimEnd(u)
    ensures AllBlank(s[i + |r|..])
  {
    assert s[i + |r|..] == u[|r|..];
  }

  /** Trimming twice is trimming once. */
  lemma TrimIdempotent(s: string)
    ensures Trim(Trim(s)) == Trim(s)
  {
    var t := Trim(s);
    if t != [] {
      assert !Blank(t[0]) by {
        var u := TrimStart(s);
        assert t == u[..|t|];
      }
      assert TrimStart(t) == t;
    }
  }

  function StartsWith(s: string, prefix: string): bool
  {
    |prefix| <= |s| && s[..|prefix|] == prefix
  }

  /** Independent description of the rejected commands: "rm" right after
      some (possibly no) blanks. */
  predicate LeadingRm(cmd: string)
  {
    exists i :: 0 <= i && i + 1 < |cmd| && cmd[i] == 'r' && cmd[i + 1] == 'm' && AllBlank(cmd[..i])
  }

  predicate AllBlank(s: string)
  {
    forall k :: 0 <= k < |s| ==> Blank(s[k])
  }

  /** The trimmed command starts with "rm" exactly when "rm" follows the
      leading blanks. */
  lemma TrimmedRm(cmd: string)
    ensures StartsWith(Trim(cmd), "rm") <==> LeadingRm(cmd)
  {
    if StartsWith(Trim(cmd), "rm") {
      TrimmedRmLeads(cmd);
    }
    if LeadingRm(cmd) {
      LeadingRmTrimmed(cmd);
    }
  }

  lemma TrimmedRmLeads(cmd: string)
    requires StartsWith(Trim(cmd), "rm")
    ensures LeadingRm(cmd)
  {
    var u := TrimStart(cmd);
    var t := TrimEnd(u);
    var i := |cmd| - |u|;
    assert t[..2] == "rm";
    assert u[..|t|] == t && u == cmd[i..];
    assert cmd[i] == 'r' && cmd[i + 1] == 'm' by {
      assert t[0] == u[0] == cmd[i] && t[1] == u[1] == cmd[i + 1];
    }
    assert AllBlank(cmd[..i]);
    assert 0 <= i && i + 1 < |cmd| && cmd[i] == 'r' && cmd[i + 1] == 'm' && AllBlank(cmd[..i]);
  }

  /** The trailing cut never reaches the first two characters when they
      are not blanks. */
  lemma LeadingRmTrimmed(cmd: string)
    requires LeadingRm(cmd)
    ensures StartsWith(Trim(cmd), "rm")
  {
    var j :| 0 <= j && j + 1 < |cmd| && cmd[j] == 'r' && cmd[j + 1] == 'm' && AllBlank(cmd[..j]);
    TrimStartAt(cmd, j);
    var u := cmd[j..];
    assert u[0] == 'r' && u[1] == 'm';
    TrimEndKeeps(u);
    RmPrefix(TrimEnd(u));
  }

  lemma RmPrefix(t: string)
    requires |t| >= 2 && t[0] == 'r' && t[1] == 'm'
    ensures StartsWith(t, "rm")
  {
    assert t[..2] == "rm";
  }

  /** Leading blanks up to a non-blank are exactly what TrimStart cuts. */
  lemma {:induction false} TrimStartAt(s: string, j: nat)
    requires j < |s| && !Blank(s[j]) && AllBlank(s[..j])
    ensures TrimStart(s) == s[j..]
    decreases j
  {
    if j > 0 {
      assert Blank(s[..j][0]);
      assert s[1..][..j - 1] == s[..j][1..];
      TrimStartAt(s[1..], j - 1);
      assert s[1..][j - 1..] == s[j..];
    }
  }

  /** TrimEnd keeps the first two characters when the second is no blank. */
  lemma TrimEndKeeps(u: string)
    requires |u| >= 2 && !Blank(u[1])
    ensures |TrimEnd(u)| >= 2 && TrimEnd(u)[0] == u[0] && TrimEnd(u)[1] == u[1]
  {
  }

  /** The administrator's password. */
  const AdminPassword := "a5)9=514dfm-"

  const RmRefused := "rm command is not allowed for non-admin users"

  /** A proxy: only whether its user is the administrator matters, and it
      is settled at construction. */
  datatype CommandExecutorProxy = CommandExecutorProxy(isAdmin: bool)

  function NewProxy(user: string, pwd: string): (p: CommandExecutorProxy)
    ensures p.isAdmin <==> user == "admin" && pwd == AdminPassword
  {
    CommandExecutorProxy(user == "admin" && pwd == AdminPassword)
  }

  /** What a command comes to: executed as given (the executor prints
      "'<cmd>' command executed"), or refused with an exception message. */
  datatype Outcome = Executed(cmd: string) | Refused(message: string)

  /** runCommand. */
  function RunCommand(p: CommandExecutorProxy, cmd: string): (r: Outcome)
    // what is run is always the command as given, untrimmed
    ensures r.Executed? ==> r.cmd == cmd
    ensures r.Refused? ==> r.message == RmRefused
    // the administrator is never refused
    ensures p.isAdmin ==> r.Executed?
  {
    if p.isAdmin then Executed(cmd)
    else if StartsWith(Trim(cmd), "rm") then Refused(RmRefused)
    else Executed(cmd)
  }

  /** Exactly the non-administrator's commands with "rm" after the leading
      blanks are refused. */
  lemma RefusedIff(p: CommandExecutorProxy, cmd: string)
    ensures RunCommand(p, cmd).Refused? <==> !p.isAdmin && LeadingRm(cmd)
  {
    TrimmedRm(cmd);
  }
}

module ProxyScenarios {
  import opened Proxy

  /** The demo: "admin_pwd" is not the administrator's password, so the
      listing runs and the removal is refused. */
  lemma Application()
    ensures !NewProxy("admin", "admin_pwd").isAdmin
    ensures RunCommand(NewProxy("admin", "admin_pwd"), "ls -halt") == Executed("ls -halt")
    ensures RunCommand(NewProxy("admin", "admin_pwd"), " rm -rf /") == Refused(RmRefused)
  {
    ListingRuns();
    RemovalRefused();
  }

  lemma ListingRuns()
    ensures !NewProxy("admin", "admin_pwd").isAdmin
    ensures RunCommand(NewProxy("admin", "admin_pwd"), "ls -halt") == Executed("ls -halt")
  {
    ListingTrim();
  }

  lemma RemovalRefused()
    ensures RunCommand(NewProxy("admin", "admin_pwd"), " rm -rf /") == Refused(RmRefused)
  {
    RemovalTrim();
  }

  /** Trim leaves the listing alone, and it does not start with "rm". */
  lemma ListingTrim()
    ensures Trim("ls -halt") == "ls -halt" && !StartsWith("ls -halt", "rm")
  {
    assert "ls -halt"[0] == 'l';
  }

  /** Trim cuts the removal's leading space, and the rest starts with "rm". */
  lemma RemovalTrim()
    ensures Trim(" rm -rf /") == "rm -rf /" && StartsWith("rm -rf /", "rm")
  {
    assert " rm -rf /"[1..] == "rm -rf /";
    assert TrimStart(" rm -rf /") == TrimStart("rm -rf /");
    RmPrefix("rm -rf /");
  }

  /** The test is a prefix test: "rmdir" is refused too, and an "rm" later
      in the line is let through. */
  lemma PrefixOnly()
    ensures RunCommand(CommandExecutorProxy(false), "rmdir").Refused?
    ensures RunCommand(CommandExecutorProxy(false), "ls; rm x") == Executed("ls; rm x")
    ensures RunCommand(NewProxy("admin", AdminPassword), " rm -rf /") == Executed(" rm -rf /")
  {
    assert Trim("rmdir") == "rmdir";
    assert Trim("ls; rm x") == "ls; rm x";
  }
}
