/** ClassHelper::getShortName: `substr($name, strrpos($name, '\\') + 1)`. */
module ClassHelper {
  import opened Basics
  import opened Strings

  /** `strrpos` gives false when there is no backslash, and `false + 1` is 1, so the
      first character is then dropped; `substr` past the end gives ''. */
  function GetShortName(full: string): string {
    var offset := match LastIndexOf(full, '\\') case Some(i) => i + 1 case None => 1;
    if offset <= |full| then full[offset..] else ""
  }

  /** With a backslash, the short name is the text after the last one. */
  lemma ShortNameAfterLastBackslash(full: string)
    requires '\\' in full
    ensures var r := GetShortName(full);
      '\\' !in r && exists k :: 0 <= k < |full| && full[k] == '\\' && full[k + 1..] == r
  {
    var i := LastIndexOf(full, '\\').value;
    assert full[i] == '\\' && full[i + 1..] == GetShortName(full);
  }

  /** A name ending in a backslash has an empty short name. */
  lemma ShortNameOfNamespace(full: string)
    requires full != [] && full[|full| - 1] == '\\'
    ensures GetShortName(full) == ""
  {
  }

  /** Without a backslash the first character is lost. */
  lemma ShortNameWithoutNamespace(full: string)
    requires '\\' !in full && full != []
    ensures GetShortName(full) == full[1..]
  {
  }
}
