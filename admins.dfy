/**
 * The moderators: the `ADMIN_IDS` setting, a comma-separated list of
 * Telegram user ids, and the membership test that gates moderation.
 * The setting's text is passed in instead of being read from the
 * environment.
 */
module Admins {
  import opened Optional
  import opened Strings

  /** What one comma-separated part contributes: its stripped text, if non-blank and an integer. */
  function PartId(part: string): Option<int> {
    var p := Strip(part);
    if p == [] then None else ParseInt(p)
  }

  /** What each comma-separated part contributes, part by part. */
  function PartIds(parts: seq<string>): (r: seq<Option<int>>)
    ensures |r| == |parts|
  {
    seq(|parts|, i requires 0 <= i < |parts| => PartId(parts[i]))
  }

  /** The values present in `opts`, in order; absent ones are skipped. */
  function Present(opts: seq<Option<int>>): seq<int> {
    if opts == [] then []
    else Present(opts[..|opts| - 1]) + (if opts[|opts| - 1].Some? then [opts[|opts| - 1].value] else [])
  }

  /** The ids `get_admin_ids` returns for the setting `raw`. */
  function AdminIds(raw: string): seq<int> {
    Present(PartIds(Split(raw, ',')))
  }

  /**
   * `get_admin_ids`: walks the comma-separated parts, strips each, skips
   * blank ones and those that are not integers, and collects the rest.
   */
  method GetAdminIds(raw: string) returns (ids: seq<int>)
    ensures ids == AdminIds(raw)
  {
    var parts := Split(raw, ',');
    ghost var opts := PartIds(parts);
    ids := [];
    var i := 0;
    while i < |parts|
      invariant 0 <= i <= |parts|
      invariant ids == Present(opts[..i])
    {
      assert opts[..i + 1][..i] == opts[..i];
      var part := Strip(parts[i]);
      if part != [] {
        var n := ParseInt(part);
        if n.Some? {
          ids := ids + [n.value];
        }
      }
      i := i + 1;
    }
    assert opts[..i] == opts;
  }

  /** `is_admin`: the user is one of the parsed ids. */
  method IsAdmin(raw: string, userId: int) returns (b: bool)
    ensures b <==> userId in AdminIds(raw)
  {
    var ids := GetAdminIds(raw);
    b := userId in ids;
  }

  /** A value is present exactly when some entry holds it. */
  lemma {:induction false} PresentMember(opts: seq<Option<int>>, n: int)
    ensures n in Present(opts) <==> Some(n) in opts
  {
    if opts != [] {
      var k := |opts| - 1;
      PresentMember(opts[..k], n);
      assert opts == opts[..k] + [opts[k]];
    }
  }

  /** The setting lists `n` exactly when one of its comma-separated parts strips to an integer equal to `n`. */
  lemma AdminIdsMember(raw: string, n: int)
    ensures n in AdminIds(raw) <==>
      exists p :: p in Split(raw, ',') && Strip(p) != [] && ParseInt(Strip(p)) == Some(n)
  {
    var parts := Split(raw, ',');
    var opts := PartIds(parts);
    PresentMember(opts, n);
    if Some(n) in opts {
      var i :| 0 <= i < |opts| && opts[i] == Some(n);
      assert parts[i] in parts && PartId(parts[i]) == Some(n);
    }
    if exists p :: p in parts && Strip(p) != [] && ParseInt(Strip(p)) == Some(n) {
      var p :| p in parts && Strip(p) != [] && ParseInt(Strip(p)) == Some(n);
      var i :| 0 <= i < |parts| && parts[i] == p;
      assert opts[i] == Some(n);
    }
  }

  /** The setting that lists exactly `ids`: their decimal forms joined by commas. */
  function Setting(ids: seq<int>): string {
    Join(Shown(ids), ',')
  }

  /** The decimal form of each id. */
  function Shown(ids: seq<int>): (r: seq<string>)
    ensures |r| == |ids|
  {
    if ids == [] then [] else Shown(ids[..|ids| - 1]) + [ShowInt(ids[|ids| - 1])]
  }

  /** A decimal form is its own stripped part and parses back to its number. */
  lemma PartIdShown(n: int)
    ensures PartId(ShowInt(n)) == Some(n)
  {
    var s := ShowInt(n);
    assert !IsSpace(s[0]) && StripStart(s) == s;
    assert !IsSpace(s[|s| - 1]) && StripEnd(s) == s;
    ParseShowInt(n);
  }

  /** Every decimal form contributes its number. */
  lemma PartIdsShown(ids: seq<int>)
    ensures PartIds(Shown(ids)) == seq(|ids|, i requires 0 <= i < |ids| => Some(ids[i]))
  {
    forall i | 0 <= i < |ids|
      ensures PartIds(Shown(ids))[i] == Some(ids[i])
    {
      ShownAt(ids, i);
      PartIdShown(ids[i]);
    }
  }

  lemma {:induction false} ShownAt(ids: seq<int>, i: int)
    requires 0 <= i < |ids|
    ensures Shown(ids)[i] == ShowInt(ids[i])
  {
    var k := |ids| - 1;
    if i < k {
      ShownAt(ids[..k], i);
    }
  }

  /** When every entry is present, the present values are the entries themselves. */
  lemma {:induction false} PresentAll(ids: seq<int>)
    ensures Present(seq(|ids|, i requires 0 <= i < |ids| => Some(ids[i]))) == ids
  {
    if ids != [] {
      var k := |ids| - 1;
      var opts := seq(|ids|, i requires 0 <= i < |ids| => Some(ids[i]));
      assert opts[..k] == seq(k, i requires 0 <= i < k => Some(ids[..k][i]));
      PresentAll(ids[..k]);
      assert ids[..k] + [ids[k]] == ids;
    }
  }

  lemma {:induction false} ShownHasNoComma(ids: seq<int>)
    ensures forall p :: p in Shown(ids) ==> ',' !in p
  {
    if ids != [] {
      var k := |ids| - 1;
      ShownHasNoComma(ids[..k]);
      var last := ShowInt(ids[k]);
      assert ',' !in last;
    }
  }

  /** Reading back a setting written from a list of ids gives that list, in order. */
  lemma AdminIdsOfSetting(ids: seq<int>)
    ensures AdminIds(Setting(ids)) == ids
  {
    var shown := Shown(ids);
    PartIdsShown(ids);
    PresentAll(ids);
    if ids != [] {
      ShownHasNoComma(ids);
      SplitJoin(shown, ',');
    }
  }
}
