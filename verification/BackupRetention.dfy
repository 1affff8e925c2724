/**
 pruneBackupObjects and objectKeyFor (backend/src/core/services/backup-s3.ts): which of the listed objects are
 this product's own backups, and which of those are kept.  Times are milliseconds since the epoch.
 */
module BackupRetention {
  datatype Listed = Listed(key: string, lastModified: int)

  const NAME_START := "compendiq-backup-"
  const NAME_END := "Z.enc"
  const DAY := 24 * 60 * 60 * 1000

  // ---------------------------------------------------------------- owned names

  function OwnedPrefix(prefix: string): string {
    if prefix == "" || prefix[|prefix| - 1] == '/' then prefix else prefix + "/"
  }

  predicate Digit(c: char) {
    '0' <= c <= '9'
  }

  /** The anchored name pattern: the start, eight digits, T, six digits, Z.enc, and nothing else. */
  predicate BackupName(s: string) {
    && |s| == |NAME_START| + 15 + |NAME_END|
    && NAME_START <= s
    && (forall i :: |NAME_START| <= i < |NAME_START| + 8 ==> Digit(s[i]))
    && s[|NAME_START| + 8] == 'T'
    && (forall i :: |NAME_START| + 9 <= i < |NAME_START| + 15 ==> Digit(s[i]))
    && s[|NAME_START| + 15..] == NAME_END
  }

  predicate Owned(prefix: string, key: string) {
    OwnedPrefix(prefix) <= key && BackupName(key[|OwnedPrefix(prefix)|..])
  }

  predicate DigitText(s: string, n: nat) {
    |s| == n && forall i :: 0 <= i < n ==> Digit(s[i])
  }

  predicate Named(prefix: string, key: string, day: string, time: string) {
    && DigitText(day, 8) && DigitText(time, 6)
    && key == OwnedPrefix(prefix) + (NAME_START + (day + ("T" + (time + NAME_END))))
  }

  /** Which keys are this product's: the prefix, the fixed start, eight digits, T, six digits and Z.enc. */
  lemma OwnedKeyExactly(prefix: string, key: string)
    ensures Owned(prefix, key) <==> exists day, time :: Named(prefix, key, day, time)
  {
    var start := OwnedPrefix(prefix);
    if Owned(prefix, key) {
      var name := key[|start|..];
      var n := |NAME_START|;
      var day, time := name[n..n + 8], name[n + 9..n + 15];
      assert DigitText(day, 8) && DigitText(time, 6);
      hide Digit;
      assert name == NAME_START + (day + ("T" + (time + NAME_END))) && key == start + name;
      assert Named(prefix, key, day, time);
    }
    if day, time :| Named(prefix, key, day, time) {
      NameShape(day, time);
      assert key[|start|..] == NAME_START + (day + ("T" + (time + NAME_END)));
    }
  }

  datatype Date = Date(year: nat, month: nat, day: nat, hour: nat, minute: nat, second: nat, millisecond: nat)

  /** `n` in exactly `width` decimal digits. */
  function Padded(n: nat, width: nat): (s: string)
    ensures |s| == width && forall i :: 0 <= i < width ==> Digit(s[i])
  {
    if width == 0 then "" else Padded(n / 10, width - 1) + ['0' + (n % 10) as char]
  }

  /** Date.toISOString for the years it writes with four digits. */
  function IsoString(d: Date): string {
    Padded(d.year, 4) + ("-" + (Padded(d.month, 2) + ("-" + (Padded(d.day, 2)
    + ("T" + (Padded(d.hour, 2) + (":" + (Padded(d.minute, 2) + (":" + (Padded(d.second, 2) + Millis(d)))))))))))
  }

  function Millis(d: Date): string {
    "." + Padded(d.millisecond, 3) + "Z"
  }

  function WithoutSeparators(s: string): string {
    if s == "" then ""
    else (if s[0] == '-' || s[0] == ':' then "" else [s[0]]) + WithoutSeparators(s[1..])
  }

  /** Replaces a trailing dot, three digits and Z by Z. */
  function WithoutMillis(s: string): string {
    if |s| >= 5 && s[|s| - 5] == '.' && (forall i :: |s| - 4 <= i < |s| - 1 ==> Digit(s[i])) && s[|s| - 1] == 'Z'
    then s[..|s| - 5] + "Z" else s
  }

  function ObjectKeyFor(prefix: string, d: Date): string {
    OwnedPrefix(prefix) + NAME_START + WithoutMillis(WithoutSeparators(IsoString(d))) + ".enc"
  }

  lemma {:induction false} StripConcat(a: string, b: string)
    ensures WithoutSeparators(a + b) == WithoutSeparators(a) + WithoutSeparators(b)
  {
    if a == "" {
      assert a + b == b;
    } else {
      assert (a + b)[1..] == a[1..] + b;
      StripConcat(a[1..], b);
    }
  }

  lemma {:induction false} StripKeeps(a: string)
    requires Plain(a)
    ensures WithoutSeparators(a) == a
  {
    if a != "" { StripKeeps(a[1..]); }
  }

  predicate Plain(a: string) {
    forall i :: 0 <= i < |a| ==> a[i] != '-' && a[i] != ':'
  }

  lemma StripPlain(a: string, rest: string)
    requires Plain(a)
    ensures WithoutSeparators(a + rest) == a + WithoutSeparators(rest)
  {
    StripKeeps(a);
    StripConcat(a, rest);
  }

  lemma StripJoint(a: string, separator: string, rest: string)
    requires Plain(a) && (separator == "-" || separator == ":")
    ensures WithoutSeparators(a + (separator + rest)) == a + WithoutSeparators(rest)
  {
    StripPlain(a, separator + rest);
    StripConcat(separator, rest);
    assert WithoutSeparators(separator) == "" && "" + WithoutSeparators(rest) == WithoutSeparators(rest);
  }

  function DayDigits(d: Date): string {
    Padded(d.year, 4) + Padded(d.month, 2) + Padded(d.day, 2)
  }

  function TimeDigits(d: Date): string {
    Padded(d.hour, 2) + Padded(d.minute, 2) + Padded(d.second, 2)
  }

  lemma StripTime(d: Date)
    ensures WithoutSeparators(Padded(d.hour, 2) + (":" + (Padded(d.minute, 2) + (":" + (Padded(d.second, 2) + Millis(d))))))
      == TimeDigits(d) + Millis(d)
  {
    var h, mi, s := Padded(d.hour, 2), Padded(d.minute, 2), Padded(d.second, 2);
    StripJoint(h, ":", mi + (":" + (s + Millis(d))));
    StripJoint(mi, ":", s + Millis(d));
    StripKeeps(s + Millis(d));
    assert h + (mi + (s + Millis(d))) == (h + mi + s) + Millis(d);
  }

  lemma StripDay(d: Date, rest: string)
    ensures WithoutSeparators(Padded(d.year, 4) + ("-" + (Padded(d.month, 2) + ("-" + (Padded(d.day, 2) + rest)))))
      == DayDigits(d) + WithoutSeparators(rest)
  {
    var y, mo, da := Padded(d.year, 4), Padded(d.month, 2), Padded(d.day, 2);
    StripJoint(y, "-", mo + ("-" + (da + rest)));
    StripJoint(mo, "-", da + rest);
    StripPlain(da, rest);
    assert y + (mo + (da + WithoutSeparators(rest))) == (y + mo + da) + WithoutSeparators(rest);
  }

  lemma StripIso(d: Date)
    ensures WithoutSeparators(IsoString(d)) == DayDigits(d) + ("T" + (TimeDigits(d) + Millis(d)))
  {
    var time := Padded(d.hour, 2) + (":" + (Padded(d.minute, 2) + (":" + (Padded(d.second, 2) + Millis(d)))));
    StripTime(d);
    StripPlain("T", time);
    StripDay(d, "T" + time);
  }

  lemma MillisDropped(stamp: string, d: Date)
    ensures WithoutMillis(stamp + Millis(d)) == stamp + "Z"
  {
    var s, millis := stamp + Millis(d), Padded(d.millisecond, 3);
    assert Millis(d)[0] == '.' && Millis(d)[4] == 'Z';
    assert forall i :: 1 <= i < 4 ==> Millis(d)[i] == millis[i - 1];
    assert forall i :: 0 <= i < 5 ==> s[|stamp| + i] == Millis(d)[i];
    assert s[..|s| - 5] == stamp;
  }

  lemma NameShape(day: string, time: string)
    requires |day| == 8 && |time| == 6
    requires (forall i :: 0 <= i < 8 ==> Digit(day[i])) && forall i :: 0 <= i < 6 ==> Digit(time[i])
    ensures BackupName(NAME_START + (day + ("T" + (time + NAME_END))))
  {
    var s := NAME_START + (day + ("T" + (time + NAME_END)));
    var n := |NAME_START|;
    assert forall i :: 0 <= i < 8 ==> s[n + i] == day[i];
    assert forall i :: n <= i < n + 8 ==> s[i] == day[i - n];
    assert forall i :: n + 9 <= i < n + 15 ==> s[i] == time[i - n - 9];
    assert s[n + 15..] == NAME_END;
  }

  /** Every key the uploader picks is one that retention recognises, whatever the prefix. */
  lemma UploadedKeysAreOwned(prefix: string, d: Date)
    requires d.year < 10000
    ensures Owned(prefix, ObjectKeyFor(prefix, d))
  {
    var day, time := DayDigits(d), TimeDigits(d);
    StripIso(d);
    assert day + ("T" + (time + Millis(d))) == (day + ("T" + time)) + Millis(d);
    MillisDropped(day + ("T" + time), d);
    NameShape(day, time);
    var name := NAME_START + (day + ("T" + (time + NAME_END)));
    hide BackupName; hide WithoutMillis; hide WithoutSeparators; hide IsoString; hide DayDigits; hide TimeDigits;
    KeyText(prefix, day, time);
    assert ObjectKeyFor(prefix, d) == OwnedPrefix(prefix) + name;
    assert ObjectKeyFor(prefix, d)[|OwnedPrefix(prefix)|..] == name;
  }

  lemma KeyText(prefix: string, day: string, time: string)
    ensures OwnedPrefix(prefix) + NAME_START + ((day + ("T" + time)) + "Z") + ".enc"
      == OwnedPrefix(prefix) + (NAME_START + (day + ("T" + (time + NAME_END))))
  {
    assert NAME_END == "Z" + ".enc";
  }

  // ---------------------------------------------------------------- newest first

  predicate NewestFirst(s: seq<Listed>) {
    forall i, j :: 0 <= i < j < |s| ==> s[i].lastModified >= s[j].lastModified
  }

  /** Array.prototype.sort is stable: an object goes before later listed ones that are as new. */
  function Insert(o: Listed, s: seq<Listed>): seq<Listed> {
    if s == [] || s[0].lastModified <= o.lastModified then [o] + s else [s[0]] + Insert(o, s[1..])
  }

  function Sorted(s: seq<Listed>): seq<Listed> {
    if s == [] then [] else Insert(s[0], Sorted(s[1..]))
  }

  /** The objects of one instant. */
  function Of(s: seq<Listed>, time: int): seq<Listed> {
    if s == [] then [] else (if s[0].lastModified == time then [s[0]] else []) + Of(s[1..], time)
  }

  lemma OfCons(o: Listed, s: seq<Listed>, time: int)
    ensures Of([o] + s, time) == (if o.lastModified == time then [o] else []) + Of(s, time)
  {
    assert ([o] + s)[1..] == s;
  }

  lemma {:induction false} InsertStable(o: Listed, s: seq<Listed>, time: int)
    ensures Of(Insert(o, s), time) == (if o.lastModified == time then [o] else []) + Of(s, time)
  {
    if s == [] || s[0].lastModified <= o.lastModified {
      OfCons(o, s, time);
    } else {
      InsertStable(o, s[1..], time);
      var rest := Insert(o, s[1..]);
      assert Insert(o, s) == [s[0]] + rest && s == [s[0]] + s[1..];
      hide Insert; hide Of;
      OfCons(s[0], rest, time);
      OfCons(s[0], s[1..], time);
    }
  }

  /** Objects of the same instant stay in the order they were listed in. */
  lemma {:induction false} SortedStable(s: seq<Listed>, time: int)
    ensures Of(Sorted(s), time) == Of(s, time)
  {
    if s != [] {
      SortedStable(s[1..], time);
      InsertStable(s[0], Sorted(s[1..]), time);
    }
  }

  /** How many objects are inside the age window. */
  function Fresh(s: seq<Listed>, cutoff: int): nat {
    if s == [] then 0 else (if s[0].lastModified < cutoff then 0 else 1) + Fresh(s[1..], cutoff)
  }

  lemma {:induction false} InsertPermutes(o: Listed, s: seq<Listed>)
    ensures multiset(Insert(o, s)) == multiset(s) + multiset{o}
  {
    if s == [] || s[0].lastModified <= o.lastModified {
    } else {
      InsertPermutes(o, s[1..]);
      assert s == [s[0]] + s[1..];
    }
  }

  lemma NewestInFront(o: Listed, s: seq<Listed>)
    requires NewestFirst(s) && forall x :: x in s ==> o.lastModified >= x.lastModified
    ensures NewestFirst([o] + s)
  {
    var t := [o] + s;
    forall i, j | 0 <= i < j < |t| ensures t[i].lastModified >= t[j].lastModified {
      assert t[j] == s[j - 1];
      assert i > 0 ==> t[i] == s[i - 1];
    }
  }

  lemma {:induction false} InsertKeeps(o: Listed, s: seq<Listed>)
    requires NewestFirst(s)
    ensures NewestFirst(Insert(o, s)) && multiset(Insert(o, s)) == multiset(s) + multiset{o}
  {
    InsertPermutes(o, s);
    if s == [] || s[0].lastModified <= o.lastModified {
      NewestInFront(o, s);
    } else {
      var rest := Insert(o, s[1..]);
      assert NewestFirst(s[1..]);
      InsertKeeps(o, s[1..]);
      assert Insert(o, s) == [s[0]] + rest;
      forall x | x in rest ensures s[0].lastModified >= x.lastModified { assert x in multiset(rest); }
      hide Insert;
      NewestInFront(s[0], rest);
    }
  }

  lemma {:induction false} InsertFresh(o: Listed, s: seq<Listed>, cutoff: int)
    ensures Fresh(Insert(o, s), cutoff) == (if o.lastModified < cutoff then 0 else 1) + Fresh(s, cutoff)
  {
    if s == [] || s[0].lastModified <= o.lastModified {
      assert Insert(o, s)[1..] == s;
    } else {
      InsertFresh(o, s[1..], cutoff);
      assert Insert(o, s)[1..] == Insert(o, s[1..]);
    }
  }

  lemma {:induction false} SortedKeeps(s: seq<Listed>)
    ensures NewestFirst(Sorted(s)) && multiset(Sorted(s)) == multiset(s)
  {
    if s != [] {
      SortedKeeps(s[1..]);
      InsertKeeps(s[0], Sorted(s[1..]));
      assert s == [s[0]] + s[1..];
      hide NewestFirst; hide Insert;
    }
  }

  lemma {:induction false} SortedFresh(s: seq<Listed>, cutoff: int)
    ensures Fresh(Sorted(s), cutoff) == Fresh(s, cutoff)
  {
    if s != [] {
      SortedFresh(s[1..], cutoff);
      InsertFresh(s[0], Sorted(s[1..]), cutoff);
    }
  }

  /** In newest-first order the age window is a prefix. */
  lemma {:induction false} WindowIsPrefix(s: seq<Listed>, cutoff: int, i: nat)
    requires NewestFirst(s) && i < |s|
    ensures s[i].lastModified >= cutoff <==> i < Fresh(s, cutoff)
    ensures Fresh(s, cutoff) <= |s|
  {
    if s[0].lastModified < cutoff {
      NoneFresh(s, cutoff);
    } else if i > 0 {
      WindowIsPrefix(s[1..], cutoff, i - 1);
    } else {
      FreshBound(s, cutoff);
    }
  }

  lemma {:induction false} NoneFresh(s: seq<Listed>, cutoff: int)
    requires forall i :: 0 <= i < |s| ==> s[i].lastModified < cutoff
    ensures Fresh(s, cutoff) == 0
  {
    if s != [] { NoneFresh(s[1..], cutoff); }
  }

  lemma {:induction false} FreshBound(s: seq<Listed>, cutoff: int)
    ensures Fresh(s, cutoff) <= |s|
  {
    if s != [] { FreshBound(s[1..], cutoff); }
  }

  // ---------------------------------------------------------------- retention

  function OwnedOf(prefix: string, listed: seq<Listed>): seq<Listed> {
    if listed == [] then []
    else (if Owned(prefix, listed[0].key) then [listed[0]] else []) + OwnedOf(prefix, listed[1..])
  }

  lemma {:induction false} OwnedExactly(prefix: string, listed: seq<Listed>, o: Listed)
    ensures o in OwnedOf(prefix, listed) <==> o in listed && Owned(prefix, o.key)
  {
    if listed != [] { OwnedExactly(prefix, listed[1..], o); }
  }

  function Min(a: int, b: int): int {
    if a < b then a else b
  }

  function Keys(s: seq<Listed>): seq<string> {
    seq(|s|, i requires 0 <= i < |s| => s[i].key)
  }

  /** The first `kept` objects are those inside both limits. */
  predicate Keeps(order: seq<Listed>, kept: nat, count: int, cutoff: int) {
    && kept <= |order|
    && forall i :: 0 <= i < |order| ==> (i < kept <==> i < count && order[i].lastModified >= cutoff)
  }

  /** Exactly a prefix of the newest-first owned backups is kept; all other owned ones are deleted, newest
      first, and no other key is. */
  method PruneBackupObjects(prefix: string, listed: seq<Listed>, retentionCount: int, retentionDays: int, now: int)
    returns (deleted: seq<string>, ghost order: seq<Listed>, ghost kept: nat)
    ensures multiset(order) == multiset(OwnedOf(prefix, listed)) && NewestFirst(order)
    ensures forall time :: Of(order, time) == Of(OwnedOf(prefix, listed), time)
    ensures Keeps(order, kept, retentionCount, now - retentionDays * DAY) && deleted == Keys(order[kept..])
    ensures forall k :: k in deleted ==> Owned(prefix, k) && exists o :: o in listed && o.key == k
  {
    var objects := Sorted(OwnedOf(prefix, listed));
    order := objects;
    var cutoff := now - retentionDays * DAY;
    SortedKeeps(OwnedOf(prefix, listed));
    kept := KeptAreNewest(objects, retentionCount, cutoff);
    forall time ensures Of(objects, time) == Of(OwnedOf(prefix, listed), time) {
      SortedStable(OwnedOf(prefix, listed), time);
    }
    hide Fresh; hide Sorted; hide OwnedOf; hide Owned; hide NewestFirst; hide Of;
    deleted := [];
    for i := 0 to |objects|
      invariant Stale(deleted, objects, kept, i)
    {
      assert i < kept <==> i < retentionCount && objects[i].lastModified >= cutoff;
      if i >= retentionCount || objects[i].lastModified < cutoff {
        StaleGrows(deleted, objects, kept, i);
        deleted := deleted + [objects[i].key];
      }
    }
    assert objects[kept..|objects|] == objects[kept..];
    StaleOwned(prefix, listed, objects, kept);
  }

  /** The loop has passed `i` objects and collected the keys from `kept` on. */
  predicate Stale(deleted: seq<string>, objects: seq<Listed>, kept: nat, i: nat)
    requires i <= |objects|
  {
    if i <= kept then deleted == [] else deleted == Keys(objects[kept..i])
  }

  lemma StaleGrows(deleted: seq<string>, objects: seq<Listed>, kept: nat, i: nat)
    requires kept <= i < |objects| && Stale(deleted, objects, kept, i)
    ensures Stale(deleted + [objects[i].key], objects, kept, i + 1)
  {
    assert objects[kept..i + 1] == objects[kept..i] + [objects[i]];
  }

  lemma StaleOwned(prefix: string, listed: seq<Listed>, objects: seq<Listed>, kept: nat)
    requires multiset(objects) == multiset(OwnedOf(prefix, listed)) && kept <= |objects|
    ensures forall k :: k in Keys(objects[kept..]) ==> Owned(prefix, k) && exists o :: o in listed && o.key == k
  {
    forall k | k in Keys(objects[kept..]) ensures Owned(prefix, k) && exists o :: o in listed && o.key == k {
      var i :| 0 <= i < |objects[kept..]| && objects[kept..][i].key == k;
      var o := objects[kept + i];
      assert o in multiset(objects);
      OwnedExactly(prefix, listed, o);
    }
  }

  /** There is always one prefix that is inside both limits, and nothing behind it is newer than anything in it. */
  lemma KeptAreNewest(order: seq<Listed>, count: int, cutoff: int) returns (kept: nat)
    requires NewestFirst(order)
    ensures Keeps(order, kept, count, cutoff)
    ensures forall i, j :: 0 <= i < kept <= j < |order| ==> order[i].lastModified >= order[j].lastModified
  {
    kept := if count < 0 then 0 else Min(count, Fresh(order, cutoff));
    FreshBound(order, cutoff);
    forall i | 0 <= i < |order| ensures i < kept <==> i < count && order[i].lastModified >= cutoff {
      WindowIsPrefix(order, cutoff, i);
    }
  }
}
