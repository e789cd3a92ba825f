/** The one helper of the linker's `functions` module: `shrinkuser`. */
module Functions {
  import opened Strings
  import opened Paths

  /**
   * `shrinkuser(path)`: replaces every occurrence of the current user's home
   * directory (`os.path.expanduser('~')`, computed from `$HOME`, passed in as
   * `home`) with `~`, left to right and without overlaps. The home string is
   * never empty, so the result is never longer than the input, and a path
   * that does not mention it comes back unchanged.
   */
  function ShrinkUser(home: string, path: string): (r: string)
    ensures !Contains(path, ExpandUser(home, "~")) ==> r == path
    ensures |r| <= |path|
  {
    ReplaceAll(path, ExpandUser(home, "~"), "~")
  }

  /**
   * `shrinkuser` undoes `expanduser` on a `~/…` path whose remainder does not
   * itself mention the home directory: `~/test` expands and shrinks back to
   * `~/test`.
   */
  lemma ShrinkUserUndoesExpandUser(home: string, rest: string)
    requires rest == [] || rest[0] == '/'
    requires !Contains(rest, ExpandUser(home, "~"))
    ensures ShrinkUser(home, ExpandUser(home, "~" + rest)) == "~" + rest
  {
    var h := RStripSlash(home);
    var p := "~" + rest;
    assert p[1..] == rest;
    assert IsPrefix("~", p);
    if rest == [] {
      assert p == "~";
    } else {
      assert IndexOf(p[1..], '/') == 0;
    }
    assert ExpandUser(home, p) == (if h + rest == [] then "/" else h + rest);
    if h != [] {
      assert ExpandUser(home, "~") == h;
      ReplaceAllPrefix(h, rest, "~");
    } else if rest != [] {
      assert ExpandUser(home, "~") == "/";
      assert OccursAt(rest, "/", 0);
      assert false;
    }
  }
}
