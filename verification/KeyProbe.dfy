/** The probe of a boot that finds no epoch, said on the rows themselves: which stored value refuses
    the boot. */
module KeyProbe {
  import opened Options
  import opened KeyState

  /** The secret versions of a table in two parts are those of its parts, in order. */
  lemma {:induction false} VersionsOfParts(a: seq<Row>, b: seq<Row>)
    ensures SecretVersions(a + b) == SecretVersions(a) + SecretVersions(b)
    ensures |b| == 1 ==> SecretVersions(b) == if b[0].secretVersion then b else []
    decreases |b|
  {
    if b == [] {
      assert a + b == a;
    } else {
      var n := |b| - 1;
      assert (a + b)[..|a| + n] == a + b[..n];
      VersionsOfParts(a, b[..n]);
    }
  }

  /** The positions of the secret versions after row `i`. */
  function VersionsAfter(rows: seq<Row>, i: nat): set<nat> {
    set j: nat | i < j < |rows| && rows[j].secretVersion
  }

  /** Row `i` is the encrypted secret version the probe comes to: none after it is encrypted, and
      fewer than `limit` come after it at all. */
  predicate Decides(rows: seq<Row>, i: nat, limit: nat) {
    && i < |rows| && rows[i].secretVersion && rows[i].under.Some?
    && (forall j :: i < j < |rows| && rows[j].secretVersion ==> rows[j].under.None?)
    && |VersionsAfter(rows, i)| < limit
  }

  lemma NoneAfterLast(rows: seq<Row>)
    requires rows != []
    ensures VersionsAfter(rows, |rows| - 1) == {}
  {
  }

  /** One row fewer takes its own position away. */
  lemma VersionsAfterShorter(rows: seq<Row>, i: nat)
    requires rows != [] && i < |rows| - 1
    ensures var n := |rows| - 1;
            |VersionsAfter(rows, i)| == |VersionsAfter(rows[..n], i)| + if rows[n].secretVersion then 1 else 0
  {
    var n := |rows| - 1;
    if rows[n].secretVersion {
      assert VersionsAfter(rows, i) == VersionsAfter(rows[..n], i) + {n};
    } else {
      assert VersionsAfter(rows, i) == VersionsAfter(rows[..n], i);
    }
  }

  /** A row before the last one decides, or not, as it does without the last one. */
  lemma DecidesShorter(rows: seq<Row>, i: nat, limit: nat)
    requires rows != [] && i < |rows| - 1 && limit > 0
    ensures var n := |rows| - 1;
            Decides(rows, i, limit) <==>
              if rows[n].secretVersion then rows[n].under.None? && Decides(rows[..n], i, limit - 1)
              else Decides(rows[..n], i, limit)
  {
    VersionsAfterShorter(rows, i);
  }

  lemma {:induction false} NewestDecides(rows: seq<Row>, limit: nat)
    ensures var newest := NewestEncrypted(SecretVersions(rows), limit);
            && (newest.Some? ==> exists i: nat :: Decides(rows, i, limit) && rows[i].under == newest)
            && (forall i: nat :: Decides(rows, i, limit) ==> rows[i].under == newest)
    decreases |rows|
  {
    if rows != [] && limit > 0 {
      var n := |rows| - 1;
      var versions := SecretVersions(rows);
      NoneAfterLast(rows);
      if rows[n].secretVersion && rows[n].under.Some? {
        assert Decides(rows, n, limit) && versions[|versions| - 1] == rows[n];
      } else {
        var rest := if rows[n].secretVersion then limit - 1 else limit;
        assert rows[n].secretVersion ==> versions[..|versions| - 1] == SecretVersions(rows[..n]);
        assert !rows[n].secretVersion ==> versions == SecretVersions(rows[..n]);
        NewestDecides(rows[..n], rest);
        forall i | 0 <= i < n ensures Decides(rows, i, limit) <==> Decides(rows[..n], i, rest) {
          DecidesShorter(rows, i, limit);
        }
        var newest := NewestEncrypted(SecretVersions(rows), limit);
        if newest.Some? {
          var i: nat :| Decides(rows[..n], i, rest) && rows[..n][i].under == newest;
          assert Decides(rows, i, limit) && rows[i].under == newest;
        }
      }
    }
  }

  /** The probe refuses a DEK if and only if some encrypted secret version is under another one, with
      no encrypted secret version and fewer than 50 secret versions after it. */
  lemma ProbeRefusesExactly(rows: seq<Row>, own: Dek)
    ensures !Probe(rows, own) <==> exists i: nat :: Decides(rows, i, 50) && rows[i].under != Some(own)
  {
    NewestDecides(rows, PROBE_LIMIT);
  }
}
