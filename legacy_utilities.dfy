/** src/utilities.py: the older first-match helper and the project path
    builder. */
module LegacyUtilities {
  import opened Values
  import opened Utilities
  import Resolver

  /** `lookup`: scan in order and return the first record that has `key`
      with value `val`; records without `key` are skipped. */
  method Lookup(key: string, val: string, items: seq<Record>) returns (found: Option<Record>)
    ensures found == FirstMatch(key, val, items)
    ensures found.None? <==> forall i | 0 <= i < |items| :: !HasKeyVal(items[i], key, val)
    ensures found.Some? ==> found.value in items && HasKeyVal(found.value, key, val)
  {
    for i := 0 to |items|
      invariant forall j | 0 <= j < i :: !HasKeyVal(items[j], key, val)
    {
      var item := items[i];
      if key in item && item[key] == val {
        return Some(item);
      }
    }
    return None;
  }

  /** `projects_path`: "projects/{id}/", then "{filter}/" for any filter
      that is not None, the empty one included. */
  function ProjectsPath(id: string, filter: Option<string>): (path: string)
    ensures "projects/" + id + "/" <= path
    ensures path[|path| - 1] == '/'
    ensures filter.None? ==> |path| == |"projects/" + id + "/"|
    ensures filter.Some? ==> path[|"projects/" + id + "/"|..] == filter.value + "/"
  {
    if filter.None? then "projects/" + id + "/"
    else "projects/" + id + "/" + filter.value + "/"
  }

  /** For a non-empty id and a filter that is absent or non-empty, the old
      builder gives the path `_fetch_project_resource` builds for that id. */
  lemma AgreesWithProjectPath(id: string, name: Option<string>, filter: Option<string>)
    requires id != ""
    requires filter.None? || filter.value != ""
    ensures ProjectsPath(id, filter) == Resolver.ProjectPath(Some(id), name, Some(id), filter)
  {
    Resolver.ProjectPathOfId(id, name, filter);
    if filter.Some? {
      assert "projects/" + id + "/" + (filter.value + "/") == "projects/" + id + "/" + filter.value + "/";
    }
  }

  /** An empty filter: the old builder adds a segment "" and so ends in
      "//"; the newer client skips the falsy filter. */
  lemma EmptyFilterDiffers(id: string, name: Option<string>)
    requires id != ""
    ensures ProjectsPath(id, Some("")) == "projects/" + id + "//"
    ensures Resolver.ProjectPath(Some(id), name, Some(id), Some("")) == "projects/" + id + "/"
  {
    Resolver.ProjectPathOfId(id, name, Some(""));
    var stem := "projects/" + id;
    assert stem + "/" + "" == stem + "/";
    assert stem + "/" + "/" == stem + "//";
  }
}
