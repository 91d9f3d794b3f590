/**
 * The Podman executor (src/executor/podman.js): a user may run podman when their name is a line
 * of the `.killignore` file (which the process killer spares) and they hold the sub-id range.
 *
 * The file is an `Option<String>` (`None` when it does not exist); the usermod runs are returned
 * as the commands issued as root.
 */
module Podman {
  import opened Base
  import opened Strings
  import opened LineFile

  const IdRange: String := "100000-165535"

  /** What `checkPodmanEnabled` answers, and the file after it (it creates a missing one). */
  datatype Checked = Checked(enabled: bool, file: String)

  /** A user is enabled when one line of the file, not trimmed, is exactly their name. */
  function Check(file: Option<String>, user: String): (r: Checked)
    ensures file.None? ==> r == Checked(false, "root\n")
    ensures file.Some? ==> r.file == file.value
  {
    match file
    case None => Checked(false, "root\n")
    case Some(content) => Checked(user in Split(content, '\n'), content)
  }

  /** The message, the file afterwards and the commands run as root. */
  datatype Outcome = Outcome(message: String, file: String, commands: seq<seq<String>>)

  /** `enablePodman`: an enabled user is left alone; otherwise their name is appended as a line. */
  function Enable(file: Option<String>, user: String): (r: Outcome)
    ensures Check(file, user).enabled <==> r.message == "Done unchanged"
    ensures Check(file, user).enabled ==> r == Outcome("Done unchanged", Check(file, user).file, [])
    ensures !Check(file, user).enabled ==>
              r.message == "Updated for podman"
              && r.file == Trim(Check(file, user).file) + "\n" + user + "\n"
              && r.commands == [["root", "usermod", "--add-subuids", IdRange, "--add-subgids", IdRange, user]]
  {
    var c := Check(file, user);
    if c.enabled then Outcome("Done unchanged", c.file, [])
    else Outcome("Updated for podman", Trim(c.file) + "\n" + user + "\n",
                 [["root", "usermod", "--add-subuids", IdRange, "--add-subgids", IdRange, user]])
  }

  /** `disablePodman`: a user not enabled is left alone; otherwise every line naming them goes. */
  function Disable(file: Option<String>, user: String): (r: Outcome)
    ensures !Check(file, user).enabled <==> r.message == "Done unchanged"
    ensures !Check(file, user).enabled ==> r == Outcome("Done unchanged", Check(file, user).file, [])
    ensures Check(file, user).enabled ==>
              r.message == "Updated for podman"
              && r.file == Render(Filter(Lines(Check(file, user).file), (x: String) => x != user))
              && r.commands == [["root", "usermod", "--del-subuids", IdRange, "--del-subgids", IdRange, user]]
  {
    var c := Check(file, user);
    if !c.enabled then Outcome("Done unchanged", c.file, [])
    else Outcome("Updated for podman", Render(Filter(Lines(c.file), (x: String) => x != user)),
                 [["root", "usermod", "--del-subuids", IdRange, "--del-subgids", IdRange, user]])
  }

  /** The lines of the file enabling writes: the old lines, trimmed as a whole, then the user. */
  lemma EnabledLines(content: String, user: String)
    requires '\n' !in user
    ensures Split(Trim(content) + "\n" + user + "\n", '\n') == Split(Trim(content), '\n') + [user, ""]
  {
    assert Trim(content) + "\n" + user + "\n" == Trim(content) + ['\n'] + (user + ['\n'] + "");
    SplitAppend(Trim(content), '\n', user + ['\n'] + "");
    SplitAppend(user, '\n', "");
    SplitNoSeparator(user, '\n');
  }

  /** After enabling, the user is enabled, and enabling again changes nothing. */
  lemma EnableThenEnabled(file: Option<String>, user: String)
    requires '\n' !in user
    ensures Check(Some(Enable(file, user).file), user).enabled
    ensures Enable(Some(Enable(file, user).file), user)
            == Outcome("Done unchanged", Enable(file, user).file, [])
  {
    var c := Check(file, user);
    if !c.enabled {
      EnabledLines(c.file, user);
      var parts := Split(Enable(file, user).file, '\n');
      assert parts[|parts| - 2] == user;
    }
  }

  /** The lines of the file disabling writes: the old lines without the user's, then an empty one. */
  lemma DisabledLines(content: String, user: String)
    ensures var kept := Filter(Lines(content), (x: String) => x != user);
            Split(Render(kept), '\n') == (if |kept| == 0 then [""] else kept) + [""]
  {
    var kept := Filter(Lines(content), (x: String) => x != user);
    var j := Join(kept, "\n");
    assert Render(kept) == j + ['\n'] + "";
    SplitAppend(j, '\n', "");
    if |kept| > 0 {
      forall i | 0 <= i < |kept| ensures '\n' !in kept[i] {
        assert kept[i] in kept;
        FilterMembers(Lines(content), (x: String) => x != user, kept[i]);
        var k :| 0 <= k < |Lines(content)| && Lines(content)[k] == kept[i];
      }
      SplitJoin(kept, '\n');
    }
  }

  /**
   * After disabling, a named user is no longer enabled, every other line of the trimmed file is
   * still a line, and disabling again changes nothing.
   */
  lemma DisableThenDisabled(file: Option<String>, user: String)
    requires user != ""
    requires Check(file, user).enabled
    ensures !Check(Some(Disable(file, user).file), user).enabled
    ensures forall x :: x in Lines(file.value) && x != user ==> x in Split(Disable(file, user).file, '\n')
    ensures Disable(Some(Disable(file, user).file), user)
            == Outcome("Done unchanged", Disable(file, user).file, [])
  {
    var content := file.value;
    var kept := Filter(Lines(content), (x: String) => x != user);
    DisabledLines(content, user);
    forall x ensures x in kept <==> x in Lines(content) && x != user {
      FilterMembers(Lines(content), (y: String) => y != user, x);
    }
  }

  /** A missing file is created holding root alone, so enabling writes root and the user. */
  lemma EnableMissingFile(user: String)
    ensures Enable(None, user).file == "root\n" + user + "\n"
  {
    assert Check(None, user) == Checked(false, "root\n");
    assert Trim("root\n") == "root";
  }

  /** Disabling turns back exactly the grant that enabling gives. */
  lemma DisableUndoesEnable(file: Option<String>, user: String)
    requires !Check(file, user).enabled
    requires '\n' !in user
    ensures var on := Enable(file, user);
            Disable(Some(on.file), user).commands
            == [["root", "usermod", "--del-subuids", IdRange, "--del-subgids", IdRange, user]]
            && on.commands == [["root", "usermod", "--add-subuids", IdRange, "--add-subgids", IdRange, user]]
  {
    EnableThenEnabled(file, user);
  }
}
