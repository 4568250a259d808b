/** The component name the operators pass keeps while it walks directories (src/main.rs,
    lines 184-203). The name is only logged; it does not influence which blobs are verified. */
module Components {
  import opened Strings
  import opened Manifests

  /** `dir.split("/").last().unwrap()`: the last `/`-separated component of a directory path,
      empty when the path ends with `/`. The `unwrap` cannot fail: a split has a last piece. */
  function LastComponent(dirPath: string): string {
    var parts := Split(dirPath, '/');
    parts[|parts| - 1]
  }

  /** The new `component_full_name` after the walk enters directory `dirPath`. A directory named
      after a digest resets the name; otherwise two independent `if`s run one after the other, so
      a name that starts empty takes the component and then, in the second `if`, gets it
      appended a second time. */
  function NextComponentName(fullName: string, dirPath: string): string {
    var component := LastComponent(dirPath);
    if Contains(component, "sha256:") then ""
    else
      var afterFirst := if component != "" && fullName == "" then component else fullName;
      if component != "" && afterFirst != "" then afterFirst + "/" + component else afterFirst
  }

  /** The last component of `parent/name` is `name` when `name` has no `/`. */
  lemma LastComponentOfChild(parent: string, name: string)
    requires '/' !in name
    ensures LastComponent(parent + ['/'] + name) == name
  {
    SplitAround(parent, '/', name);
    SplitNoSeparator(name, '/');
  }

  /** A fresh name for component `c` is `c/c`. */
  lemma FreshNameDoubles(parent: string, c: string)
    requires c != "" && '/' !in c && !Contains(c, "sha256:")
    ensures NextComponentName("", parent + ['/'] + c) == c + "/" + c
  {
    LastComponentOfChild(parent, c);
  }

  /** A name in progress gets `/c` appended. */
  lemma NameExtends(fullName: string, parent: string, c: string)
    requires fullName != "" && c != "" && '/' !in c && !Contains(c, "sha256:")
    ensures NextComponentName(fullName, parent + ['/'] + c) == fullName + "/" + c
  {
    LastComponentOfChild(parent, c);
  }

  /** A directory named after a digest clears the name. */
  lemma DigestDirectoryResets(fullName: string, parent: string, c: string)
    requires '/' !in c && Contains(c, "sha256:")
    ensures NextComponentName(fullName, parent + ['/'] + c) == ""
  {
    LastComponentOfChild(parent, c);
  }

  /** A path ending in `/`, such as the walk's root `<base>/<dir>/operators/`, leaves the name as
      it is. */
  lemma TrailingSlashKeepsName(fullName: string, dirPath: string)
    ensures NextComponentName(fullName, dirPath + ['/']) == fullName
  {
    LastComponentOfChild(dirPath, "");
    assert dirPath + ['/'] + "" == dirPath + ['/'];
    assert !Contains("", "sha256:");
  }

  /** The name after a walk over `entries`: every directory entry updates it, files leave it as
      it is. */
  function ComponentNameAfter(fullName: string, entries: seq<Entry>): string
    decreases |entries|
  {
    if entries == [] then fullName
    else
      var name := ComponentNameAfter(fullName, entries[..|entries| - 1]);
      match entries[|entries| - 1]
      case Dir(path) => NextComponentName(name, path)
      case File(_, _) => name
  }
}
