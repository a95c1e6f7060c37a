/** The shell commands that `Target#deploy` issues through its actor, and the log of
    what the actor was asked to do. */
module Commands {

  datatype Command =
    | TestExists(path: string)   // probe used by the cleanup lambda
    | RemoveTree(path: string)   // the removal done by the cleanup lambda
    | MakeDir(path: string)      // the lock
    | TypeRuby                   // is the Ruby interpreter on the PATH
    | TypeGem                    // is the gem tool on the PATH
    | ListShaddox                // is the shaddox gem installed
    | UpdateShaddox
    | InstallShaddox
    | RunScript(path: string)    // run the staged script with ruby

  /** One request made of the actor, in the order made. */
  datatype Event =
    | Ran(command: Command)
    | Wrote(path: string, content: string)

  /** The exact command line the source passes to `exec`. */
  function Render(c: Command): string
  {
    match c
    case TestExists(p) => "test -e " + p + " >/dev/null"
    case RemoveTree(p) => "rm -r " + p
    case MakeDir(p) => "mkdir " + p
    case TypeRuby => "type ruby >/dev/null"
    case TypeGem => "type gem >/dev/null"
    case ListShaddox => "gem list shaddox -i >/dev/null"
    case UpdateShaddox => "gem update shaddox"
    case InstallShaddox => "gem install shaddox"
    case RunScript(p) => "ruby " + p
  }

  /** A fixed leading part of each command line, long enough to tell the kinds apart. */
  function Key(c: Command): string
  {
    match c
    case TestExists(_) => "test -e "
    case RemoveTree(_) => "rm -r "
    case MakeDir(_) => "mkdir "
    case TypeRuby => "type r"
    case TypeGem => "type g"
    case ListShaddox => "gem l"
    case UpdateShaddox => "gem u"
    case InstallShaddox => "gem i"
    case RunScript(_) => "ruby "
  }

  lemma KeyIsPrefix(c: Command)
    ensures |Key(c)| <= |Render(c)| && Render(c)[..|Key(c)|] == Key(c)
  {
  }

  /** Two keys of different kinds of command differ at some index both have. */
  lemma KeysDiffer(a: Command, b: Command)
    requires Key(a) != Key(b)
    ensures exists i :: 0 <= i < |Key(a)| && i < |Key(b)| && Key(a)[i] != Key(b)[i]
  {
    var ka, kb := Key(a), Key(b);
    if ka[0] != kb[0] {
      assert 0 < |ka| && 0 < |kb|;
    } else if ka[1] != kb[1] {
      assert 1 < |ka| && 1 < |kb|;
    } else if ka[4] != kb[4] {
      assert 4 < |ka| && 4 < |kb|;
    } else {
      assert 5 < |ka| && 5 < |kb| && ka[5] != kb[5];
    }
  }

  /** The command lines are unambiguous: a log of rendered command lines determines the
      commands, so the structured log of the model loses nothing. */
  lemma RenderInjective(a: Command, b: Command)
    requires Render(a) == Render(b)
    ensures a == b
  {
    var s := Render(a);
    KeyIsPrefix(a);
    KeyIsPrefix(b);
    if Key(a) != Key(b) {
      KeysDiffer(a, b);
      assert false;
    }
    match a
    case TestExists(p) =>
      var q := b.path;
      assert |p| == |q|;
      assert p == s[8..8 + |p|];
      assert q == s[8..8 + |q|];
    case RemoveTree(p) =>
      assert p == s[6..];
      assert b.path == s[6..];
    case MakeDir(p) =>
      assert p == s[6..];
      assert b.path == s[6..];
    case RunScript(p) =>
      assert p == s[5..];
      assert b.path == s[5..];
    case _ =>
  }
}
