/**
  calculate_customs_fee_kg: the Kyrgyz customs duty, looked up in a table keyed
  by manufacture year, each year holding duties keyed by engine-volume ceiling.
  The table module itself is not part of this model, so the table is a parameter.
 */
module KgDuty {
  import opened Wrappers

  /** Manufacture year -> (engine-volume ceiling in cm3 -> duty in KGS). */
  type Table = map<int, map<int, int>>

  /** The ValueError cases of the lookup. */
  datatype DutyError =
    | TooOld    // no table year at or before the car's year (for an empty table, min() itself raises)
    | NoTiers   // the chosen year holds no ceilings, so max() of its keys raises

  /** `year` is the latest table year that is not after `carYear`. */
  ghost predicate IsRowYear(table: Table, carYear: int, year: int)
  {
    year in table && year <= carYear && forall y :: y in table && y <= carYear ==> y <= year
  }

  /**
    `ceiling` is the tier that applies to `volume`: the smallest ceiling at or
    above the volume, or the largest ceiling when the volume exceeds them all.
   */
  ghost predicate IsTier(row: map<int, int>, volume: int, ceiling: int)
  {
    && ceiling in row
    && if exists c :: c in row && volume <= c
       then volume <= ceiling && forall c :: c in row && volume <= c ==> ceiling <= c
       else forall c :: c in row ==> c <= ceiling
  }

  lemma HasKey(keys: set<int>)
    requires keys != {}
    ensures exists k :: k in keys
  {
    if forall k :: k !in keys {
      assert false;
    }
  }

  /** Python's min() over a non-empty set of keys. */
  method MinKey(keys: set<int>) returns (m: int)
    requires keys != {}
    ensures m in keys && forall k :: k in keys ==> m <= k
  {
    HasKey(keys);
    m :| m in keys;
    var rest := keys - {m};
    while rest != {}
      invariant rest <= keys && m in keys
      invariant forall k :: k in keys && k !in rest ==> m <= k
      decreases rest
    {
      HasKey(rest);
      var k :| k in rest;
      if k < m {
        m := k;
      }
      rest := rest - {k};
    }
  }

  /** Python's max() over a non-empty set of keys. */
  method MaxKey(keys: set<int>) returns (m: int)
    requires keys != {}
    ensures m in keys && forall k :: k in keys ==> k <= m
  {
    HasKey(keys);
    m :| m in keys;
    var rest := keys - {m};
    while rest != {}
      invariant rest <= keys && m in keys
      invariant forall k :: k in keys && k !in rest ==> k <= m
      decreases rest
    {
      HasKey(rest);
      var k :| k in rest;
      if m < k {
        m := k;
      }
      rest := rest - {k};
    }
  }

  /**
    The duty for an engine volume and a manufacture year. The year walks back
    one at a time until it is a table year, failing once it drops below the
    smallest table year; the ceilings of that year are then tried in ascending
    order and the first one at or above the volume wins, the largest one
    applying when none does.
   */
  method CustomsFeeKg(table: Table, engineVolume: int, carYear: int) returns (r: Result<int, DutyError>)
    ensures r == Err(TooOld) <==> forall y :: y in table ==> carYear < y
    ensures r == Err(NoTiers) <==> exists y :: IsRowYear(table, carYear, y) && table[y] == map[]
    ensures r.Ok? ==> exists y, c :: IsRowYear(table, carYear, y) && IsTier(table[y], engineVolume, c) && r.value == table[y][c]
  {
    if table == map[] {
      // the year cannot be in an empty table, and min() of no keys raises
      return Err(TooOld);
    }
    // min() is re-evaluated on every turn of the walk; the table does not change, so once is enough
    var oldest := MinKey(table.Keys);
    var year := carYear;
    while year !in table
      invariant year <= carYear
      invariant year < carYear ==> oldest <= year
      invariant forall y :: y in table && year < y <= carYear ==> false
      decreases year - oldest
    {
      year := year - 1;
      if year < oldest {
        return Err(TooOld);
      }
    }
    assert IsRowYear(table, carYear, year);
    var row := table[year];

    var remaining := row.Keys;
    while remaining != {}
      invariant remaining <= row.Keys
      invariant forall c :: c in row && c !in remaining ==> c < engineVolume
      decreases remaining
    {
      var limit := MinKey(remaining);
      if engineVolume <= limit {
        assert IsTier(row, engineVolume, limit);
        return Ok(row[limit]);
      }
      remaining := remaining - {limit};
    }

    if row == map[] {
      return Err(NoTiers);
    }
    var largest := MaxKey(row.Keys);
    assert IsTier(row, engineVolume, largest);
    return Ok(row[largest]);
  }

  /** The three postconditions of CustomsFeeKg pin the duty down: any two witnesses name the same entry. */
  lemma DutyDetermined(table: Table, volume: int, carYear: int, y1: int, c1: int, y2: int, c2: int)
    requires IsRowYear(table, carYear, y1) && IsTier(table[y1], volume, c1)
    requires IsRowYear(table, carYear, y2) && IsTier(table[y2], volume, c2)
    ensures y1 == y2 && c1 == c2 && table[y1][c1] == table[y2][c2]
  {
  }
}
