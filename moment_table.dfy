/**
 * The fixed configuration of the weekly menu (the meal moments of a day and
 * the seven days) and the classifier that assigns a section label to a
 * moment key.
 */
module MomentTable {
  import opened Text

  /** One meal moment: its key, its display label and the label prefixes that select it. */
  datatype Momento = Momento(key: string, displayLabel: string, aliases: seq<string>)

  /** The configured moments, in display and matching order. */
  const Momentos: seq<Momento> := [
    Momento("desayuno", "Desayuno", ["desayuno"]),
    Momento("colacion1", "Colación / Snack 1", ["colación", "colacion", "snack"]),
    Momento("comida", "Comida", ["comida"]),
    Momento("colacion2", "Colación / Snack 2", ["colación", "colacion", "snack"]),
    Momento("cena", "Cena", ["cena"])
  ]

  /** The seven days of the grid, Monday first. */
  const Dias: seq<string> := ["Lunes", "Martes", "Miércoles", "Jueves", "Viernes", "Sábado", "Domingo"]

  /** The set of configured moment keys. */
  function MomentKeys(): set<string> {
    set i | 0 <= i < |Momentos| :: Momentos[i].key
  }

  /** The key given to a section no configured moment takes: `momento_no_mapeado_<n>`. */
  function UnmappedKey(n: nat): string {
    "momento_no_mapeado_" + NatToString(n)
  }

  /** `momento.aliases.some((alias) => name.startsWith(alias))` */
  predicate MatchesAlias(name: string, m: Momento) {
    exists a :: a in m.aliases && a <= name
  }

  /** `usedMoments.filter((k) => k.startsWith("colacion")).length` */
  function CountColacion(used: seq<string>): (n: nat)
    ensures n <= |used|
  {
    if used == [] then 0
    else CountColacion(used[..|used| - 1]) + (if "colacion" <= used[|used| - 1] then 1 else 0)
  }

  /** The hard-coded snack rule fires for moment `m` when `m` is a snack slot and exactly one snack key is in use. */
  predicate SnackRule(m: Momento, used: seq<string>) {
    "colacion" <= m.key && CountColacion(used) == 1
  }

  lemma UnmappedNotConfigured(n: nat)
    ensures UnmappedKey(n) !in MomentKeys()
    ensures !("colacion" <= UnmappedKey(n))
  {
    assert UnmappedKey(n)[0] == 'm';
  }

  /** The snack slots are rows 1 and 3 of the table, and they share their aliases. */
  lemma SnackRows(i: nat)
    requires i < |Momentos|
    ensures "colacion" <= Momentos[i].key <==> i == 1 || i == 3
    ensures Momentos[3].aliases == Momentos[1].aliases
  {
    if i == 0 { assert Momentos[i].key[1] != "colacion"[1]; }
    if i == 2 { assert Momentos[i].key[2] != "colacion"[2]; }
    if i == 4 { assert Momentos[i].key[1] != "colacion"[1]; }
  }

  /** Distinct counts give distinct synthetic keys. */
  lemma UnmappedKeyInjective(m: nat, n: nat)
    requires UnmappedKey(m) == UnmappedKey(n)
    ensures m == n
  {
    var p := "momento_no_mapeado_";
    assert UnmappedKey(m)[|p|..] == NatToString(m);
    assert UnmappedKey(n)[|p|..] == NatToString(n);
    NatToStringInjective(m, n);
  }

  /**
   * The `for (const momento of MOMENTOS)` loop of `getMomentoKey`, from row `i` on,
   * for the already trimmed and lower-cased label `name`.
   */
  function ScanMomentos(name: string, used: seq<string>, i: nat): (key: string)
    requires i <= |Momentos|
    ensures key in MomentKeys() || key == UnmappedKey(|used|)
    ensures key == UnmappedKey(|used|) ==>
      forall j :: i <= j < |Momentos| && MatchesAlias(name, Momentos[j]) ==> Momentos[j].key in used
    ensures key in MomentKeys() && key in used ==> key == "colacion2" && CountColacion(used) == 1
    ensures key in MomentKeys() ==>
      exists j :: i <= j < |Momentos| && Momentos[j].key == key && MatchesAlias(name, Momentos[j])
    ensures i <= 1 && key == "colacion2" && CountColacion(used) != 1 ==> "colacion1" in used
    decreases |Momentos| - i
  {
    UnmappedNotConfigured(|used|);
    if i == |Momentos| then
      UnmappedKey(|used|)
    else
      var m := Momentos[i];
      SnackRows(i);
      if MatchesAlias(name, m) then
        if SnackRule(m, used) then
          assert MatchesAlias(name, Momentos[3]);
          "colacion2"
        else if m.key !in used then
          m.key
        else
          ScanMomentos(name, used, i + 1)
      else
        ScanMomentos(name, used, i + 1)
  }

  /**
   * `getMomentoKey(sectionName, usedMoments)`: the first configured moment, in table
   * order, whose alias prefixes the trimmed, lower-cased label and that is still
   * free, with the snack rule taking precedence; otherwise a synthetic key.
   */
  function GetMomentoKey(sectionName: string, usedMoments: seq<string>): (key: string)
    ensures key in MomentKeys() || key == UnmappedKey(|usedMoments|)
    ensures key == UnmappedKey(|usedMoments|) ==>
      forall j :: 0 <= j < |Momentos| && MatchesAlias(Lower(Trim(sectionName)), Momentos[j]) ==>
        Momentos[j].key in usedMoments
    ensures key in MomentKeys() && key in usedMoments ==> key == "colacion2" && CountColacion(usedMoments) == 1
    ensures key in MomentKeys() ==>
      exists j :: 0 <= j < |Momentos| && Momentos[j].key == key && MatchesAlias(Lower(Trim(sectionName)), Momentos[j])
    ensures key == "colacion2" && CountColacion(usedMoments) != 1 ==> "colacion1" in usedMoments
  {
    ScanMomentos(Lower(Trim(sectionName)), usedMoments, 0)
  }

  // ---------------------------------------------------------------------------
  // Properties of the classifier
  // ---------------------------------------------------------------------------

  /** The first three letters every alias of row `j` starts with. */
  function AliasHeads(j: nat): set<string>
    requires j < |Momentos|
  {
    if j == 0 then {"des"} else if j == 2 then {"com"} else if j == 4 then {"cen"} else {"col", "sna"}
  }

  lemma AliasHead(j: nat, a: string)
    requires j < |Momentos| && a in Momentos[j].aliases
    ensures |a| >= 3 && a[..3] in AliasHeads(j)
  {
    if j == 0 {
      assert a == "desayuno" && a[..3] == "des";
    } else if j == 2 {
      assert a == "comida" && a[..3] == "com";
    } else if j == 4 {
      assert a == "cena" && a[..3] == "cen";
    } else {
      assert a == "colación" || a == "colacion" || a == "snack";
      assert "colación"[..3] == "col" && "colacion"[..3] == "col" && "snack"[..3] == "sna";
    }
  }

  /** Only the two snack slots share a label: no label selects two other rows. */
  lemma AliasFamilies(name: string, j: nat, k: nat)
    requires j < |Momentos| && k < |Momentos| && j != k
    requires MatchesAlias(name, Momentos[j]) && MatchesAlias(name, Momentos[k])
    ensures (j == 1 || j == 3) && (k == 1 || k == 3)
  {
    var a :| a in Momentos[j].aliases && a <= name;
    var b :| b in Momentos[k].aliases && b <= name;
    AliasHead(j, a);
    AliasHead(k, b);
    assert a[..3] == name[..3] == b[..3];
  }

  /**
   * The snack rule: a label starting with a snack alias, while exactly one key in
   * use starts with "colacion", goes to "colacion2", although the aliases of
   * "colacion1" match first.
   */
  lemma SnackDisambiguation(sectionName: string, usedMoments: seq<string>)
    requires MatchesAlias(Lower(Trim(sectionName)), Momentos[1])
    requires CountColacion(usedMoments) == 1
    ensures GetMomentoKey(sectionName, usedMoments) == "colacion2"
  {
    var name := Lower(Trim(sectionName));
    if MatchesAlias(name, Momentos[0]) {
      AliasFamilies(name, 0, 1);
    }
    SnackRows(1);
    assert ScanMomentos(name, usedMoments, 0) == ScanMomentos(name, usedMoments, 1);
  }

  /** The moment `ScanMomentos` returns is the first matching free row from `i` on. */
  lemma {:induction false} ScanFirstFree(name: string, used: seq<string>, i: nat)
    requires i <= |Momentos|
    requires !(MatchesAlias(name, Momentos[1]) && CountColacion(used) == 1)
    ensures var key := ScanMomentos(name, used, i);
      key in MomentKeys() ==>
        exists j :: i <= j < |Momentos| && Momentos[j].key == key && MatchesAlias(name, Momentos[j]) &&
          key !in used &&
          forall k :: i <= k < j && MatchesAlias(name, Momentos[k]) ==> Momentos[k].key in used
    decreases |Momentos| - i
  {
    if i < |Momentos| {
      SnackRows(i);
      ScanFirstFree(name, used, i + 1);
      var key := ScanMomentos(name, used, i);
      if MatchesAlias(name, Momentos[i]) && Momentos[i].key !in used {
        assert key == Momentos[i].key;
      }
    }
  }

  /**
   * Key selection when the snack rule does not apply: a configured key is returned
   * only if it is free and its aliases match, and every row before it in table
   * order either does not match or is taken.
   */
  lemma FirstFreeMoment(sectionName: string, usedMoments: seq<string>)
    requires !(MatchesAlias(Lower(Trim(sectionName)), Momentos[1]) && CountColacion(usedMoments) == 1)
    ensures var key := GetMomentoKey(sectionName, usedMoments);
      && (key in MomentKeys() ==>
        exists j :: 0 <= j < |Momentos| && Momentos[j].key == key &&
          MatchesAlias(Lower(Trim(sectionName)), Momentos[j]) && key !in usedMoments &&
          forall k :: 0 <= k < j && MatchesAlias(Lower(Trim(sectionName)), Momentos[k]) ==> Momentos[k].key in usedMoments)
      && (key !in MomentKeys() ==> key == UnmappedKey(|usedMoments|))
  {
    ScanFirstFree(Lower(Trim(sectionName)), usedMoments, 0);
  }

  /** A second "desayuno", "comida" or "cena" section finds its moment taken and gets a synthetic key. */
  lemma RepeatedMomentUnmapped(sectionName: string, usedMoments: seq<string>, j: nat)
    requires j == 0 || j == 2 || j == 4
    requires MatchesAlias(Lower(Trim(sectionName)), Momentos[j])
    requires Momentos[j].key in usedMoments
    ensures GetMomentoKey(sectionName, usedMoments) == UnmappedKey(|usedMoments|)
  {
    var name := Lower(Trim(sectionName));
    var key := GetMomentoKey(sectionName, usedMoments);
    if key in MomentKeys() {
      var j' :| 0 <= j' < |Momentos| && Momentos[j'].key == key && MatchesAlias(name, Momentos[j']);
      if j' != j {
        AliasFamilies(name, j, j');
      }
      assert false;
    }
  }

  lemma {:induction false} CountColacionTwo(used: seq<string>, a: nat, b: nat)
    requires a < b < |used|
    requires "colacion" <= used[a] && "colacion" <= used[b]
    ensures CountColacion(used) >= 2
    decreases |used|
  {
    if b < |used| - 1 {
      CountColacionTwo(used[..|used| - 1], a, b);
    } else {
      CountColacionOne(used[..|used| - 1], a);
    }
  }

  lemma {:induction false} CountColacionOne(used: seq<string>, a: nat)
    requires a < |used| && "colacion" <= used[a]
    ensures CountColacion(used) >= 1
    decreases |used|
  {
    if a < |used| - 1 {
      CountColacionOne(used[..|used| - 1], a);
    }
  }

  /** When the count of snack keys is one, some key in use is a snack key. */
  lemma {:induction false} CountColacionWitness(used: seq<string>) returns (a: nat)
    requires CountColacion(used) >= 1
    ensures a < |used| && "colacion" <= used[a]
    decreases |used|
  {
    if "colacion" <= used[|used| - 1] {
      a := |used| - 1;
    } else {
      a := CountColacionWitness(used[..|used| - 1]);
    }
  }

  /** A third snack section, once both snack slots are taken, gets a synthetic key. */
  lemma ThirdSnackUnmapped(sectionName: string, usedMoments: seq<string>)
    requires MatchesAlias(Lower(Trim(sectionName)), Momentos[1])
    requires "colacion1" in usedMoments && "colacion2" in usedMoments
    ensures GetMomentoKey(sectionName, usedMoments) == UnmappedKey(|usedMoments|)
  {
    var name := Lower(Trim(sectionName));
    var a :| 0 <= a < |usedMoments| && usedMoments[a] == "colacion1";
    var b :| 0 <= b < |usedMoments| && usedMoments[b] == "colacion2";
    if a < b { CountColacionTwo(usedMoments, a, b); } else { CountColacionTwo(usedMoments, b, a); }
    var key := GetMomentoKey(sectionName, usedMoments);
    if key in MomentKeys() {
      var j :| 0 <= j < |Momentos| && Momentos[j].key == key && MatchesAlias(name, Momentos[j]);
      if j != 1 {
        AliasFamilies(name, 1, j);
      }
      assert false;
    }
  }

  /**
   * The keys a parse has handed out so far: each is configured or the synthetic key
   * of its own position, no two are equal, and "colacion2" is only taken after
   * "colacion1".
   */
  ghost predicate UsedKeysValid(used: seq<string>) {
    && (forall i :: 0 <= i < |used| ==> used[i] in MomentKeys() || used[i] == UnmappedKey(i))
    && (forall i, j :: 0 <= i < j < |used| ==> used[i] != used[j])
    && ("colacion2" in used ==> "colacion1" in used)
  }

  /** A key in use that starts with "colacion" is one of the two snack slots. */
  lemma SnackKeyInUse(used: seq<string>, a: nat)
    requires UsedKeysValid(used)
    requires a < |used| && "colacion" <= used[a]
    ensures used[a] == "colacion1" || used[a] == "colacion2"
  {
    UnmappedNotConfigured(a);
    var j :| 0 <= j < |Momentos| && Momentos[j].key == used[a];
    SnackRows(j);
  }

  /** Each new key is not yet in use. */
  lemma FreshKeyNotUsed(sectionName: string, usedMoments: seq<string>)
    requires UsedKeysValid(usedMoments)
    ensures GetMomentoKey(sectionName, usedMoments) !in usedMoments
  {
    var key := GetMomentoKey(sectionName, usedMoments);
    var n := |usedMoments|;
    if key == UnmappedKey(n) {
      UnmappedNotConfigured(n);
      forall i | 0 <= i < n ensures usedMoments[i] != key {
        if usedMoments[i] == key {
          assert usedMoments[i] == UnmappedKey(i);
          UnmappedKeyInjective(i, n);
        }
      }
    } else if key in usedMoments {
      assert key == "colacion2";
      var a :| 0 <= a < n && usedMoments[a] == "colacion1";
      var b :| 0 <= b < n && usedMoments[b] == "colacion2";
      if a < b { CountColacionTwo(usedMoments, a, b); } else { CountColacionTwo(usedMoments, b, a); }
    }
  }

  /** Handing out the new key keeps the keys of a parse valid. */
  lemma FreshMomentoKey(sectionName: string, usedMoments: seq<string>)
    requires UsedKeysValid(usedMoments)
    ensures GetMomentoKey(sectionName, usedMoments) !in usedMoments
    ensures UsedKeysValid(usedMoments + [GetMomentoKey(sectionName, usedMoments)])
  {
    var key := GetMomentoKey(sectionName, usedMoments);
    var n := |usedMoments|;
    FreshKeyNotUsed(sectionName, usedMoments);
    if key == "colacion2" && "colacion1" !in usedMoments {
      var a := CountColacionWitness(usedMoments);
      SnackKeyInUse(usedMoments, a);
    }
    var used' := usedMoments + [key];
    assert forall i :: 0 <= i < n ==> used'[i] == usedMoments[i];
    assert used'[n] == key;
  }

  /** The label is trimmed and lower-cased before anything else looks at it. */
  lemma NormalizedLabel(sectionName: string, usedMoments: seq<string>)
    ensures GetMomentoKey(Lower(Trim(sectionName)), usedMoments) == GetMomentoKey(sectionName, usedMoments)
  {
    TrimLower(sectionName);
    LowerIdempotent(Trim(sectionName));
  }

  /** Labels that differ only in the case of their letters get the same key. */
  lemma CaseInsensitive(sectionName: string, usedMoments: seq<string>)
    ensures GetMomentoKey(Lower(sectionName), usedMoments) == GetMomentoKey(sectionName, usedMoments)
  {
    TrimLowerCommute(sectionName);
    LowerIdempotent(Trim(sectionName));
  }
}
