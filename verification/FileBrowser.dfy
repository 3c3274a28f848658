/** The file browser of an allocation: the directory path, and the text of a followed file. */
module FileBrowser {
  import opened Wrappers

  // ------------------------------------------------------------- library calls

  /** `s.lastIndexOf(c, from)`: the last position of `c` not after `from`, or -1. A negative
      `from` counts as 0. */
  function LastIndexOf(s: string, c: char, from: int): (r: int)
    ensures -1 <= r < |s| && (r >= 0 ==> s[r] == c)
    decreases if from < 0 then 0 else from
  {
    var i := if from < 0 then 0 else from;
    if i < |s| && s[i] == c then i
    else if i == 0 then -1
    else LastIndexOf(s, c, i - 1)
  }

  lemma {:induction false} LastIndexIs(s: string, c: char, from: int, r: nat)
    requires r <= from < |s| && s[r] == c && forall j | r < j <= from :: s[j] != c
    ensures LastIndexOf(s, c, from) == r
  {
    if from > r {
      LastIndexIs(s, c, from - 1, r);
    }
  }

  // ------------------------------------------------------------- directories

  const ROOT := "/"
  const BACK := "back"

  /** The root when no path is given. */
  function DirOf(path: Option<string>): string {
    if path == None || path.value == "" then ROOT else path.value
  }

  /** The path after a click on a directory entry; no path counts as the root. */
  function Click(query: Option<string>, name: string): string {
    var path := DirOf(query);
    if name == BACK then path[..LastIndexOf(path, '/', |path| - 2) + 1]
    else path + name + "/"
  }

  /** The printed form of a stack of directory names, outermost first. */
  function Print(stack: seq<string>): string {
    if stack == [] then ROOT else Print(stack[..|stack| - 1]) + stack[|stack| - 1] + "/"
  }

  predicate NoSlash(name: string) {
    '/' !in name
  }

  /** Entering pushes, going back pops, and the root stays the root. */
  function StackClick(stack: seq<string>, name: string): seq<string> {
    if name != BACK then stack + [name]
    else if stack == [] then [] else stack[..|stack| - 1]
  }

  function StackAfter(clicks: seq<string>): seq<string> {
    if clicks == [] then [] else StackClick(StackAfter(clicks[..|clicks| - 1]), clicks[|clicks| - 1])
  }

  /** The path in the URL after some clicks, at first none. */
  function QueryAfter(clicks: seq<string>): Option<string> {
    if clicks == [] then None else Some(Click(QueryAfter(clicks[..|clicks| - 1]), clicks[|clicks| - 1]))
  }

  /** The directory shown after some clicks. */
  function PathAfter(clicks: seq<string>): string {
    DirOf(QueryAfter(clicks))
  }

  lemma PrintEndsInSlash(stack: seq<string>)
    ensures Print(stack) != "" && Print(stack)[|Print(stack)| - 1] == '/'
  {
  }

  /** Going back from an entered directory restores the path exactly when its name has no slash. */
  lemma BackUndoesEnter(path: string, name: string)
    requires path != "" && path[|path| - 1] == '/' && name != BACK
    ensures Click(Some(Click(Some(path), name)), BACK) == path <==> NoSlash(name)
  {
    var entered := path + name + "/";
    assert Click(Some(path), name) == entered;
    var from := |entered| - 2;
    if NoSlash(name) {
      forall j | |path| - 1 < j <= from ensures entered[j] != '/' {
        assert entered[j] == name[j - |path|];
        assert name[j - |path|] in name;
      }
      LastIndexIs(entered, '/', from, |path| - 1);
      assert entered[..|path|] == path;
    } else {
      var k := LastSlash(name);
      forall j | |path| + k < j <= from ensures entered[j] != '/' {
        assert entered[j] == name[j - |path|];
      }
      LastIndexIs(entered, '/', from, |path| + k);
    }
  }

  lemma {:induction false} LastSlash(name: string) returns (k: nat)
    requires !NoSlash(name)
    ensures k < |name| && name[k] == '/' && forall j | k < j < |name| :: name[j] != '/'
  {
    if name[|name| - 1] == '/' {
      k := |name| - 1;
    } else {
      var front := name[..|name| - 1];
      var i :| 0 <= i < |name| && name[i] == '/';
      assert front[i] == '/';
      k := LastSlash(front);
    }
  }

  lemma EnterPrints(stack: seq<string>, name: string)
    requires name != BACK
    ensures Click(Some(Print(stack)), name) == Print(stack + [name])
  {
    PrintEndsInSlash(stack);
    assert (stack + [name])[..|stack|] == stack;
  }

  lemma BackAtRoot()
    ensures Click(Some(ROOT), BACK) == ROOT
  {
  }

  lemma BackPops(stack: seq<string>)
    requires stack != [] && NoSlash(stack[|stack| - 1]) && stack[|stack| - 1] != BACK
    ensures Click(Some(Print(stack)), BACK) == Print(stack[..|stack| - 1])
  {
    var path, name := Print(stack[..|stack| - 1]), stack[|stack| - 1];
    PrintEndsInSlash(stack[..|stack| - 1]);
    BackUndoesEnter(path, name);
    assert Click(Some(path), name) == Print(stack);
  }

  lemma {:induction false} StackNames(clicks: seq<string>)
    requires forall i | 0 <= i < |clicks| :: NoSlash(clicks[i])
    ensures forall i | 0 <= i < |StackAfter(clicks)| :: NoSlash(StackAfter(clicks)[i]) && StackAfter(clicks)[i] != BACK
  {
    if clicks != [] {
      StackNames(clicks[..|clicks| - 1]);
    }
  }

  /** One click moves path and stack alike. */
  lemma NoPathIsRoot(query: Option<string>, name: string)
    ensures DirOf(None) == "/" && Click(query, name) == Click(Some(DirOf(query)), name)
  {
  }

  lemma ClickPrints(stack: seq<string>, name: string)
    requires stack != [] ==> NoSlash(stack[|stack| - 1]) && stack[|stack| - 1] != BACK
    ensures Click(Some(Print(stack)), name) == Print(StackClick(stack, name))
  {
    if name != BACK {
      EnterPrints(stack, name);
    } else if stack == [] {
      BackAtRoot();
    } else {
      BackPops(stack);
    }
  }

  /** Over any clicks on slash-free names the path is the printed stack. */
  lemma {:induction false} PathIsPrintedStack(clicks: seq<string>)
    requires forall i | 0 <= i < |clicks| :: NoSlash(clicks[i])
    ensures PathAfter(clicks) == Print(StackAfter(clicks))
    ensures forall i | 0 <= i < |StackAfter(clicks)| :: NoSlash(StackAfter(clicks)[i]) && StackAfter(clicks)[i] != BACK
  {
    StackNames(clicks);
    if clicks != [] {
      var front := clicks[..|clicks| - 1];
      PathIsPrintedStack(front);
      NoPathIsRoot(QueryAfter(front), clicks[|clicks| - 1]);
      PrintEndsInSlash(StackAfter(clicks));
      ClickPrints(StackAfter(front), clicks[|clicks| - 1]);
    }
  }

  // ------------------------------------------------------------- the followed file

  const MAX_OUTPUT_LENGTH := 50000

  /** `s.slice(-n)` on a longer string; shorter ones stay whole. */
  function LastChars(s: string, n: nat): string {
    if |s| > n then s[|s| - n..] else s
  }

  /** `shown` is an end of `all`, `n` characters long or all of it. */
  ghost predicate IsEnd(shown: string, all: string, n: nat) {
    |shown| == (if |all| < n then |all| else n) && exists front :: all == front + shown
  }

  lemma LastCharsIs(s: string, n: nat)
    ensures IsEnd(LastChars(s, n), s, n)
  {
    assert s == s[..|s| - |LastChars(s, n)|] + LastChars(s, n);
  }

  lemma LastCharsAppend(s: string, t: string, n: nat)
    ensures LastChars(LastChars(s, n) + t, n) == LastChars(s + t, n)
  {
    if |s| > n {
      assert LastChars(s, n) + t == (s + t)[|s| - n..];
    }
  }

  /** Path and file as the script adds them up: an absent path reads "undefined". */
  function Joined(path: Option<string>, file: string): string {
    (if path == None then "undefined" else path.value) + file
  }

  datatype Dispatch = FetchDir(path: string) | Unwatch(file: string) | Watch(file: string) | ClearData

  class Browser {
    var contents: string
    var fileWatching: bool
    var initialDirectoryFetched: bool
    /** Everything appended since the current watch began. */
    ghost var received: string

    ghost predicate Valid()
      reads this
    {
      contents == LastChars(received, MAX_OUTPUT_LENGTH) && (!fileWatching ==> received == "")
    }

    constructor ()
      ensures Valid() && !fileWatching && received == ""
    {
      contents, fileWatching, initialDirectoryFetched, received := "", false, false, "";
    }

    /** New properties; an absent file is the empty string, and `ready` says whether the
        allocation's node is known. The text shown is always the last 50000 characters received
        since the watch began. */
    method ReceiveProps(
      ready: bool, currentPath: Option<string>, nextPath: Option<string>,
      currentFile: string, nextFile: string, data: string)
      returns (dispatched: seq<Dispatch>)
      requires Valid()
      modifies this
      ensures Valid()
      ensures IsEnd(contents, received, 50000)
      ensures !ready ==> unchanged(this) && dispatched == []
      ensures ready ==>
        var leaves := old(fileWatching) && currentFile != "" && currentFile != nextFile;
        var begins := (leaves || !old(fileWatching)) && nextFile != "";
        && initialDirectoryFetched
        && fileWatching == (begins || (old(fileWatching) && !leaves))
        && received == (if leaves then "" else old(received)) + (if fileWatching then data else "")
        && dispatched ==
             (if currentPath != nextPath || !old(initialDirectoryFetched) 
              then [FetchDir(if nextPath == None || nextPath == Some("") then "/" else nextPath.value)] else [])
             + (if leaves then [Unwatch((if currentPath == None then "undefined" else currentPath.value) + currentFile)]
                else [])
             + (if begins then [Watch((if nextPath == None then "undefined" else nextPath.value) + nextFile)] else [])
             + (if fileWatching && data != "" then [ClearData] else [])
    {
      dispatched := [];
      if !ready {
        LastCharsIs(received, MAX_OUTPUT_LENGTH);
        return;
      }
      var fetch, unwatch, watch, clear := [], [], [], [];
      if currentPath != nextPath || !initialDirectoryFetched {
        fetch := [FetchDir(DirOf(nextPath))];
        initialDirectoryFetched := true;
      }
      if fileWatching && currentFile != "" && currentFile != nextFile {
        unwatch := [Unwatch(Joined(currentPath, currentFile))];
        contents, received, fileWatching := "", "", false;
      }
      if !fileWatching && nextFile != "" {
        watch := [Watch(Joined(nextPath, nextFile))];
        fileWatching := true;
      }
      if fileWatching && data != "" {
        Append(data);
        clear := [ClearData];
      }
      dispatched := fetch + unwatch + watch + clear;
      LastCharsIs(received, MAX_OUTPUT_LENGTH);
    }

    method Append(data: string)
      requires contents == LastChars(received, MAX_OUTPUT_LENGTH)
      modifies this`contents, this`received
      ensures received == old(received) + data && contents == LastChars(received, MAX_OUTPUT_LENGTH)
    {
      LastCharsAppend(received, data, MAX_OUTPUT_LENGTH);
      contents := contents + data;
      received := received + data;
      if |contents| > MAX_OUTPUT_LENGTH {
        contents := contents[|contents| - MAX_OUTPUT_LENGTH..];
      }
    }
  }
}
