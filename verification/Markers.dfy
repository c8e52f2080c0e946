/** What the agent has learnt from lh-logrotate's marker files (marker_watcher.py). */
module Markers {
  import opened Prelude
  import opened Names

  /** `waiting` in the order first seen; `shas` keeps the first hash seen for a timestamp. */
  datatype Marks = Marks(waiting: seq<string>, shas: map<string, string>)

  const WAITING_SUFFIX := ".lh-logrotate-waiting"
  const COMPRESSED_SUFFIX := ".xz.gpg.lh-logrotate-compressed"
  const UPLOADED_SUFFIX := ".xz.gpg.lh-logrotate-uploaded"

  /** A trailing newline is invisible to a pattern that ends in `$`. */
  function Chomp(name: string): string {
    if name != "" && name[|name| - 1] == '\n' then name[..|name| - 1] else name
  }

  /** The timestamp in a `.waiting` marker's name. */
  function WaitingIso(base: string, name: string): Option<string> {
    var s, k := Chomp(name), |base| + 1;
    if && |s| >= k + 16 && s[..k] == base + "." && IsIso(s[k..k + 16])
       && s[k + 16..] == WAITING_SUFFIX
    then Some(s[k..k + 16]) else None
  }

  /** The timestamp and hash in a `.compressed` or `.uploaded` marker's name. */
  function DoneMark(base: string, name: string): Option<(string, string)> {
    var s, k := Chomp(name), |base| + 1;
    if && |s| >= k + 30 && s[..k] == base + "." && IsIso(s[k..k + 16]) && s[k + 16] == '.'
       && IsSha13(s[k + 17..k + 30])
       && (s[k + 30..] == COMPRESSED_SUFFIX || s[k + 30..] == UPLOADED_SUFFIX)
    then Some((s[k..k + 16], s[k + 17..k + 30])) else None
  }

  /** A `.waiting` marker is recognised exactly when lh-logrotate would have written that name. */
  lemma WaitingIsoExact(base: string, name: string, iso: string)
    ensures WaitingIso(base, name) == Some(iso)
       <==> IsIso(iso) && Chomp(name) == base + "." + iso + ".lh-logrotate-waiting"
  {
    var s, k := Chomp(name), |base| + 1;
    if WaitingIso(base, name) == Some(iso) {
      assert s == s[..k] + s[k..k + 16] + s[k + 16..];
    }
    if IsIso(iso) && s == base + "." + iso + WAITING_SUFFIX {
      assert s[..k] == base + "." && s[k..k + 16] == iso && s[k + 16..] == WAITING_SUFFIX;
    }
  }

  /** The same for the markers that reveal the hash. */
  lemma DoneMarkExact(base: string, name: string, iso: string, sha: string)
    ensures DoneMark(base, name) == Some((iso, sha))
       <==> && IsIso(iso) && IsSha13(sha)
            && (|| Chomp(name) == base + "." + iso + "." + sha + ".xz.gpg.lh-logrotate-compressed"
                || Chomp(name) == base + "." + iso + "." + sha + ".xz.gpg.lh-logrotate-uploaded")
  {
    var s, k := Chomp(name), |base| + 1;
    if DoneMark(base, name) == Some((iso, sha)) {
      assert s == s[..k] + s[k..k + 16] + [s[k + 16]] + s[k + 17..k + 30] + s[k + 30..];
    }
    if IsIso(iso) && IsSha13(sha) && exists t :: (t == COMPRESSED_SUFFIX || t == UPLOADED_SUFFIX)
                                                 && s == base + "." + iso + "." + sha + t {
      assert s[..k] == base + "." && s[k..k + 16] == iso && s[k + 16] == '.';
      assert s[k + 17..k + 30] == sha;
    }
  }

  /**
   * The hash is in the markers beside the final name and nowhere else: a name reveals (iso, sha) if
   * and only if it is the final name the agent makes of them with one of the two suffixes.
   */
  lemma FinalNameIsMarked(base: string, name: string, iso: string, sha: string)
    requires IsIso(iso) && IsSha13(sha)
    ensures DoneMark(base, name) == Some((iso, sha))
       <==> || Chomp(name) == Render(base, Final(iso, sha)) + COMPRESSED_SUFFIX
            || Chomp(name) == Render(base, Final(iso, sha)) + UPLOADED_SUFFIX
    ensures DoneMark(base, Render(base, Final(iso, sha)) + COMPRESSED_SUFFIX) == Some((iso, sha))
    ensures DoneMark(base, Render(base, Final(iso, sha)) + UPLOADED_SUFFIX) == Some((iso, sha))
  {
    DoneMarkExact(base, name, iso, sha);
    DoneMarkExact(base, Render(base, Final(iso, sha)) + COMPRESSED_SUFFIX, iso, sha);
    DoneMarkExact(base, Render(base, Final(iso, sha)) + UPLOADED_SUFFIX, iso, sha);
  }

  /** The timestamp is in the marker beside the seal name. */
  lemma SealNameIsMarked(base: string, name: string, iso: string)
    requires IsIso(iso)
    ensures WaitingIso(base, name) == Some(iso) <==> Chomp(name) == Render(base, Sealed(iso)) + WAITING_SUFFIX
    ensures WaitingIso(base, Render(base, Sealed(iso)) + WAITING_SUFFIX) == Some(iso)
  {
    WaitingIsoExact(base, name, iso);
    WaitingIsoExact(base, Render(base, Sealed(iso)) + WAITING_SUFFIX, iso);
  }

  /** What one directory entry adds. */
  function Learn(base: string, m: Marks, name: string): Marks {
    var m1 :=
      match WaitingIso(base, name)
      case Some(iso) => if iso in m.waiting then m else m.(waiting := m.waiting + [iso])
      case None => m;
    match DoneMark(base, name)
    case Some((iso, sha)) => if iso in m1.shas then m1 else m1.(shas := m1.shas[iso := sha])
    case None => m1
  }

  /** What a whole directory listing adds. */
  function LearnAll(base: string, m: Marks, names: seq<string>): Marks {
    if names == [] then m
    else Learn(base, LearnAll(base, m, names[..|names| - 1]), names[|names| - 1])
  }

  /** The last first-seen timestamp that is not in `consumed`. */
  function Newest(waiting: seq<string>, consumed: set<string>): Option<string> {
    if waiting == [] then None
    else if waiting[|waiting| - 1] !in consumed then Some(waiting[|waiting| - 1])
    else Newest(waiting[..|waiting| - 1], consumed)
  }

  /** Nothing learnt is ever forgotten or revised. */
  ghost predicate Extends(m: Marks, m': Marks) {
    && m.waiting <= m'.waiting
    && (forall iso | iso in m.shas :: iso in m'.shas && m'.shas[iso] == m.shas[iso])
  }

  /** Timestamps are listed once, and everything known has the form the patterns demand. */
  ghost predicate MarksOk(m: Marks) {
    && (forall i, j | 0 <= i < j < |m.waiting| :: m.waiting[i] != m.waiting[j])
    && (forall iso | iso in m.waiting :: IsIso(iso))
    && (forall iso | iso in m.shas :: IsIso(iso) && IsSha13(m.shas[iso]))
  }

  /** Every timestamp and hash was read off some marker in `names` (or known before). */
  ghost predicate SeenIn(base: string, m: Marks, names: seq<string>, m': Marks) {
    && (forall iso | iso in m'.waiting ::
          iso in m.waiting || exists n | n in names :: WaitingIso(base, n) == Some(iso))
    && (forall iso | iso in m'.shas ::
          (iso in m.shas && m.shas[iso] == m'.shas[iso])
          || exists n | n in names :: DoneMark(base, n) == Some((iso, m'.shas[iso])))
  }

  /** One entry adds at most what its name says. */
  lemma LearnOne(base: string, m: Marks, name: string)
    ensures Extends(m, Learn(base, m, name))
    ensures MarksOk(m) ==> MarksOk(Learn(base, m, name))
    ensures SeenIn(base, m, [name], Learn(base, m, name))
  {
    assert name in [name];
  }

  lemma ExtendsTwice(m: Marks, m1: Marks, m2: Marks)
    requires Extends(m, m1) && Extends(m1, m2)
    ensures Extends(m, m2)
  {
  }

  lemma SeenMore(base: string, m: Marks, names: seq<string>, m1: Marks, name: string, m2: Marks)
    requires SeenIn(base, m, names, m1) && SeenIn(base, m1, [name], m2)
    ensures SeenIn(base, m, names + [name], m2)
  {
    var all := names + [name];
    assert (forall n | n in names :: n in all) && (forall n | n in [name] :: n in all);
    forall iso | iso in m2.waiting && iso !in m.waiting
      ensures exists n | n in all :: WaitingIso(base, n) == Some(iso)
    {
      var n :| (n in names || n in [name]) && WaitingIso(base, n) == Some(iso);
      assert n in all;
    }
    forall iso | iso in m2.shas && !(iso in m.shas && m.shas[iso] == m2.shas[iso])
      ensures exists n | n in all :: DoneMark(base, n) == Some((iso, m2.shas[iso]))
    {
      var n :| (n in names || n in [name]) && DoneMark(base, n) == Some((iso, m2.shas[iso]));
      assert n in all;
    }
  }

  lemma {:induction false} LearnAllExtends(base: string, m: Marks, names: seq<string>)
    ensures Extends(m, LearnAll(base, m, names))
    ensures MarksOk(m) ==> MarksOk(LearnAll(base, m, names))
    ensures SeenIn(base, m, names, LearnAll(base, m, names))
  {
    if names != [] {
      var front, last := names[..|names| - 1], names[|names| - 1];
      assert names == front + [last];
      var m1 := LearnAll(base, m, front);
      LearnAllExtends(base, m, front);
      LearnOne(base, m1, last);
      ExtendsTwice(m, m1, LearnAll(base, m, names));
      SeenMore(base, m, front, m1, last, LearnAll(base, m, names));
    }
  }

  /** No name in the listing reveals a hash for `iso`. */
  ghost predicate Silent(base: string, names: seq<string>, iso: string) {
    forall n | n in names && DoneMark(base, n).Some? :: DoneMark(base, n).value.0 != iso
  }

  /** The first name in the listing that reveals a hash for `iso` is `names[i]`. */
  ghost predicate FirstMark(base: string, names: seq<string>, iso: string, i: nat) {
    && i < |names| && DoneMark(base, names[i]).Some? && DoneMark(base, names[i]).value.0 == iso
    && forall j | 0 <= j < i && DoneMark(base, names[j]).Some? :: DoneMark(base, names[j]).value.0 != iso
  }

  /** Everything a listed name says is known after the scan. */
  lemma {:induction false} LearnAllComplete(base: string, m: Marks, names: seq<string>)
    ensures forall n | n in names && WaitingIso(base, n).Some? ::
              WaitingIso(base, n).value in LearnAll(base, m, names).waiting
    ensures forall n | n in names && DoneMark(base, n).Some? ::
              DoneMark(base, n).value.0 in LearnAll(base, m, names).shas
  {
    if names != [] {
      var front, last := names[..|names| - 1], names[|names| - 1];
      assert names == front + [last];
      LearnAllComplete(base, m, front);
      LearnOne(base, LearnAll(base, m, front), last);
    }
  }

  /** A hash that no name in the listing reveals is not learnt. */
  lemma NoMarkNoHash(base: string, m: Marks, names: seq<string>, iso: string)
    requires iso !in m.shas && Silent(base, names, iso)
    ensures iso !in LearnAll(base, m, names).shas
  {
    LearnAllExtends(base, m, names);
  }

  /** Of several hashes for one timestamp, the first one listed is learnt. */
  lemma {:induction false} FirstHashIsLearnt(base: string, m: Marks, names: seq<string>, iso: string, i: nat)
    requires iso !in m.shas && FirstMark(base, names, iso, i)
    ensures iso in LearnAll(base, m, names).shas
    ensures LearnAll(base, m, names).shas[iso] == DoneMark(base, names[i]).value.1
    decreases |names|
  {
    var front, last := names[..|names| - 1], names[|names| - 1];
    if i < |front| {
      assert FirstMark(base, front, iso, i);
      FirstHashIsLearnt(base, m, front, iso, i);
      LearnOne(base, LearnAll(base, m, front), last);
    } else {
      NoMarkNoHash(base, m, front, iso);
    }
  }

  /** Names are learnt in the order listed: what the first `k` of them add comes before what the others add. */
  lemma {:induction false} LearnAllInOrder(base: string, m: Marks, names: seq<string>, k: nat)
    requires k <= |names|
    ensures Extends(LearnAll(base, m, names[..k]), LearnAll(base, m, names))
    decreases |names|
  {
    if k < |names| {
      var front, last := names[..|names| - 1], names[|names| - 1];
      assert front[..k] == names[..k];
      LearnAllInOrder(base, m, front, k);
      LearnOne(base, LearnAll(base, m, front), last);
      ExtendsTwice(LearnAll(base, m, names[..k]), LearnAll(base, m, front), LearnAll(base, m, names));
    } else {
      assert names[..k] == names;
    }
  }

  /** Where the last timestamp outside `consumed` is. */
  ghost predicate LastUnconsumed(waiting: seq<string>, consumed: set<string>, i: nat) {
    i < |waiting| && waiting[i] !in consumed && forall j | i < j < |waiting| :: waiting[j] in consumed
  }

  /** The search finds an unconsumed timestamp exactly when there is one, and no later one exists. */
  lemma {:induction false} NewestIsLast(waiting: seq<string>, consumed: set<string>)
    ensures Newest(waiting, consumed).None? <==> forall iso | iso in waiting :: iso in consumed
    ensures Newest(waiting, consumed).Some? ==>
              exists i: nat :: LastUnconsumed(waiting, consumed, i) && waiting[i] == Newest(waiting, consumed).value
  {
    if waiting != [] {
      var front, last := waiting[..|waiting| - 1], waiting[|waiting| - 1];
      assert waiting == front + [last];
      if last in consumed {
        NewestIsLast(front, consumed);
        if Newest(front, consumed).Some? {
          var i: nat :| LastUnconsumed(front, consumed, i) && front[i] == Newest(front, consumed).value;
          assert LastUnconsumed(waiting, consumed, i);
        }
      } else {
        assert LastUnconsumed(waiting, consumed, |front|);
      }
    }
  }

  /** Every timestamp that a listed `.waiting` marker shows is in `consumed`. */
  ghost predicate AllConsumed(base: string, names: seq<string>, consumed: set<string>) {
    forall n | n in names && WaitingIso(base, n).Some? :: WaitingIso(base, n).value in consumed
  }

  /** A scan that leaves nothing to consume has found nothing to consume. */
  lemma AllLearnt(base: string, m: Marks, names: seq<string>, consumed: set<string>)
    ensures Newest(LearnAll(base, m, names).waiting, consumed).None? ==> AllConsumed(base, names, consumed)
  {
    LearnAllComplete(base, m, names);
    NewestIsLast(LearnAll(base, m, names).waiting, consumed);
  }

  class MarkerWatcher {
    const base: string
    var waitingIsos: seq<string>
    var shaByIso: map<string, string>

    ghost function View(): Marks
      reads this
    {
      Marks(waitingIsos, shaByIso)
    }

    constructor (base: string)
      ensures this.base == base && View() == Marks([], map[])
    {
      this.base := base;
      waitingIsos, shaByIso := [], map[];
    }

    /** What `scan` does with one name. */
    method Note(name: string)
      modifies this
      ensures View() == Learn(base, old(View()), name)
    {
      var w := WaitingIso(base, name);
      if w.Some? && w.value !in waitingIsos {
        waitingIsos := waitingIsos + [w.value];
      }
      var d := DoneMark(base, name);
      if d.Some? && d.value.0 !in shaByIso {
        shaByIso := shaByIso[d.value.0 := d.value.1];
      }
    }

    /** One scan; `listing` is `None` when the directory cannot be listed. */
    method Scan(listing: Option<seq<string>>)
      modifies this
      ensures View() == match listing case None => old(View()) case Some(ns) => LearnAll(base, old(View()), ns)
    {
      if listing.None? {
        return;
      }
      var names := listing.value;
      for i := 0 to |names|
        invariant View() == LearnAll(base, old(View()), names[..i])
      {
        Note(names[i]);
        assert names[..i + 1][..i] == names[..i];
      }
      assert names[..|names|] == names;
    }

    method NewestUnconsumedWaiting(listing: Option<seq<string>>, consumed: set<string>) returns (r: Option<string>)
      modifies this
      ensures View() == match listing case None => old(View()) case Some(ns) => LearnAll(base, old(View()), ns)
      ensures r == Newest(View().waiting, consumed)
    {
      Scan(listing);
      var i := |waitingIsos|;
      assert waitingIsos[..i] == waitingIsos;
      while i > 0
        invariant 0 <= i <= |waitingIsos|
        invariant Newest(waitingIsos, consumed) == Newest(waitingIsos[..i], consumed)
      {
        i := i - 1;
        assert waitingIsos[..i + 1][..i] == waitingIsos[..i];
        if waitingIsos[i] !in consumed {
          return Some(waitingIsos[i]);
        }
      }
      r := None;
    }

    method Sha13For(listing: Option<seq<string>>, iso: string) returns (r: Option<string>)
      modifies this
      ensures Extends(old(View()), View())
      ensures iso in old(shaByIso) ==> View() == old(View())
      ensures iso !in old(shaByIso) ==>
                View() == match listing case None => old(View()) case Some(ns) => LearnAll(base, old(View()), ns)
      ensures r == if iso in shaByIso then Some(shaByIso[iso]) else None
    {
      if iso !in shaByIso {
        Scan(listing);
        if listing.Some? {
          LearnAllExtends(base, old(View()), listing.value);
        }
      }
      r := if iso in shaByIso then Some(shaByIso[iso]) else None;
    }
  }
}
