/** The earlier revision of the hierarchy editor (the main page).

    Here every industry is a dictionary of sub-industries and every
    sub-industry a stock list; there is no leaf shape and no shape check. The
    four add buttons change the session hierarchy in place and save it; the
    display spreads the sectors over eight columns.
 */
module MainPage {
  import opened Dicts
  import opened Stocks

  type SubIndustries = Dict<string, seq<Stock>>

  type Industries = Dict<string, SubIndustries>

  type Sectors = Dict<string, Industries>

  predicate IndustriesOk(m: Industries)
  {
    DistinctKeys(m) && forall p :: p in m ==> DistinctKeys(p.1)
  }

  /** No repeated key at any level. */
  predicate WellFormed(s: Sectors)
  {
    DistinctKeys(s) && forall p :: p in s ==> IndustriesOk(p.1)
  }

  predicate HasIndustry(s: Sectors, sector: string, industry: string)
  {
    HasKey(s, sector) && HasKey(At(s, sector), industry)
  }

  /** `sectors[sector][industry]` */
  function SubsAt(s: Sectors, sector: string, industry: string): SubIndustries
    requires HasIndustry(s, sector, industry)
  {
    At(At(s, sector), industry)
  }

  predicate HasSub(s: Sectors, sector: string, industry: string, sub: string)
  {
    HasIndustry(s, sector, industry) && HasKey(SubsAt(s, sector, industry), sub)
  }

  /** `sectors[sector][industry][sub]` */
  function StocksAt(s: Sectors, sector: string, industry: string, sub: string): seq<Stock>
    requires HasSub(s, sector, industry, sub)
  {
    At(SubsAt(s, sector, industry), sub)
  }

  /** `columns` is the layout of the first `n` names over eight columns
      (`st.columns(8)`): each column holds its share of the names, and the
      cell at column `c`, row `j` holds name `8 * j + c`. */
  ghost predicate ColumnsHold(columns: seq<seq<string>>, names: seq<string>, n: nat)
  {
    && n <= |names|
    && |columns| == 8
    && (forall c :: 0 <= c < 8 ==> |columns[c]| == n / 8 + (if c < n % 8 then 1 else 0))
    && (forall c, j :: 0 <= c < 8 && 0 <= j < |columns[c]| ==> 8 * j + c < n && columns[c][j] == names[8 * j + c])
  }

  /** Placing name `n` in column `n % 8` extends the layout of the first `n`
      names to the first `n + 1`. */
  lemma PlaceNext(columns: seq<seq<string>>, names: seq<string>, n: nat)
    requires n < |names| && ColumnsHold(columns, names, n)
    ensures ColumnsHold(columns[n % 8 := columns[n % 8] + [names[n]]], names, n + 1)
  {
    var c0, r0 := n % 8, n / 8;
    var next := columns[c0 := columns[c0] + [names[n]]];
    assert |columns[c0]| == r0;
    forall c | 0 <= c < 8 ensures |next[c]| == (n + 1) / 8 + (if c < (n + 1) % 8 then 1 else 0) {
      if c0 == 7 {
        assert (n + 1) / 8 == r0 + 1 && (n + 1) % 8 == 0;
      } else {
        assert (n + 1) / 8 == r0 && (n + 1) % 8 == c0 + 1;
      }
    }
    forall c, j | 0 <= c < 8 && 0 <= j < |next[c]| ensures 8 * j + c < n + 1 && next[c][j] == names[8 * j + c] {
      if c == c0 && j == r0 {
        assert 8 * j + c == n;
      } else {
        assert next[c][j] == columns[c][j];
      }
    }
  }

  /** In a layout of `n` names, name `i` sits in column `i % 8` at row
      `i / 8`: every one of the first `n` names is shown, in order within its
      column. */
  lemma EverySectorPlaced(columns: seq<seq<string>>, names: seq<string>, n: nat)
    requires ColumnsHold(columns, names, n)
    ensures forall i :: 0 <= i < n ==> i / 8 < |columns[i % 8]| && columns[i % 8][i / 8] == names[i]
  {
    forall i | 0 <= i < n ensures i / 8 < |columns[i % 8]| && columns[i % 8][i / 8] == names[i] {
      var c, j := i % 8, i / 8;
      assert i == 8 * j + c;
      assert j < n / 8 || (j == n / 8 && c < n % 8);
    }
  }

  lemma IndustriesOfSector(s: Sectors, sector: string)
    requires WellFormed(s) && HasKey(s, sector)
    ensures IndustriesOk(At(s, sector))
  {
  }

  lemma PutIndustriesKeepsWellFormed(s: Sectors, sector: string, ind: Industries)
    requires WellFormed(s) && IndustriesOk(ind)
    ensures WellFormed(Put(s, sector, ind))
  {
    PutKeepsDistinct(s, sector, ind);
    PutPairs(s, sector, ind);
  }

  lemma PutSubsKeepsIndustriesOk(m: Industries, industry: string, subs: SubIndustries)
    requires IndustriesOk(m) && DistinctKeys(subs)
    ensures IndustriesOk(Put(m, industry, subs))
  {
    PutKeepsDistinct(m, industry, subs);
    PutPairs(m, industry, subs);
  }

  /** On lists of bare symbols the main page's duplicate test (`not in`) and the
      stock dashboard's (compare with every entry) are the same rule. */
  lemma {:induction false} SameDuplicateRuleOnBareLists(stocks: seq<Stock>, symbol: string)
    requires forall i :: 0 <= i < |stocks| ==> stocks[i].Bare?
    ensures IsNew(stocks, symbol) <==> Bare(symbol) !in stocks
  {
    if Bare(symbol) in stocks {
      var i :| 0 <= i < |stocks| && stocks[i] == Bare(symbol);
      assert Clashes(stocks[i], symbol);
    } else {
      forall s | s in stocks ensures !Clashes(s, symbol) {
        var i :| 0 <= i < |stocks| && stocks[i] == s;
        assert s.Bare?;
      }
    }
  }

  class Dashboard {
    /** The hierarchy held in the session. */
    var sectors: Sectors
    /** The content of `sectors.json`; `None` while the file does not exist. */
    ghost var stored: Option<Sectors>
    /** The number of calls of `save_data` so far. */
    ghost var saves: nat

    ghost predicate Valid()
      reads this
    {
      WellFormed(sectors)
    }

    /** `save_data` is called exactly once, writing the in-memory hierarchy, when
        `accepted`, and is not called otherwise. */
    twostate predicate SavedIff(accepted: bool)
      reads this
    {
      if accepted then stored == Some(sectors) && saves == old(saves) + 1
      else stored == old(stored) && saves == old(saves)
    }

    /** `load_data`: the stored document, or an empty hierarchy when there is
        no file. */
    constructor Load(file: Option<Sectors>)
      requires file.Some? ==> WellFormed(file.value)
      ensures Valid()
      ensures sectors == if file.Some? then file.value else []
      ensures stored == file && saves == 0
    {
      sectors := if file.Some? then file.value else [];
      stored := file;
      saves := 0;
    }

    /** `save_data(sectors)` */
    ghost method SaveData()
      modifies this`stored, this`saves
      ensures stored == Some(sectors) && saves == old(saves) + 1
    {
      stored := Some(sectors);
      saves := saves + 1;
    }

    /** `sectors[sector] = industries` */
    method SetIndustries(sector: string, industries: Industries)
      requires Valid() && HasKey(sectors, sector) && IndustriesOk(industries)
      modifies this`sectors
      ensures Valid()
      ensures SameExcept(old(sectors), sectors, sector)
      ensures At(sectors, sector) == industries
    {
      PutIndustriesKeepsWellFormed(sectors, sector, industries);
      PutChangesOneKey(sectors, sector, industries);
      sectors := Put(sectors, sector, industries);
    }

    /** `sectors[sector][industry] = subs` */
    method SetSubs(sector: string, industry: string, subs: SubIndustries)
      requires Valid() && HasIndustry(sectors, sector, industry) && DistinctKeys(subs)
      modifies this`sectors
      ensures Valid()
      ensures SameExcept(old(sectors), sectors, sector)
      ensures SameExcept(At(old(sectors), sector), At(sectors, sector), industry)
      ensures SubsAt(sectors, sector, industry) == subs
    {
      var industries := At(sectors, sector);
      IndustriesOfSector(sectors, sector);
      PutSubsKeepsIndustriesOk(industries, industry, subs);
      PutChangesOneKey(industries, industry, subs);
      SetIndustries(sector, Put(industries, industry, subs));
    }

    /** The Add Sector button. */
    method AddSector(name: string) returns (accepted: bool)
      requires Valid()
      modifies this
      ensures Valid()
      ensures accepted <==> name != "" && !HasKey(old(sectors), name)
      ensures sectors == if accepted then old(sectors) + [(name, [])] else old(sectors)
      ensures forall j :: j != name ==> Get(sectors, j) == Get(old(sectors), j)
      ensures SavedIff(accepted)
    {
      accepted := name != "" && !HasKey(sectors, name);
      if accepted {
        PutChangesOneKey(sectors, name, []);
        PutIndustriesKeepsWellFormed(sectors, name, []);
        sectors := Put(sectors, name, []);
        SaveData();
      }
    }

    /** The Add Industry button: the new industry starts with no sub-industries. */
    method AddIndustry(sector: string, name: string) returns (accepted: bool)
      requires Valid() && HasKey(sectors, sector)
      modifies this
      ensures Valid()
      ensures accepted <==> name != "" && !HasKey(At(old(sectors), sector), name)
      ensures SameExcept(old(sectors), sectors, sector)
      ensures At(sectors, sector) ==
        if accepted then At(old(sectors), sector) + [(name, [])] else At(old(sectors), sector)
      ensures SavedIff(accepted)
    {
      var industries := At(sectors, sector);
      accepted := name != "" && !HasKey(industries, name);
      if accepted {
        IndustriesOfSector(sectors, sector);
        PutSubsKeepsIndustriesOk(industries, name, []);
        SetIndustries(sector, Put(industries, name, []));
        SaveData();
      } else {
        PutChangesOneKey(sectors, sector, industries);
      }
    }

    /** The Add Sub-Industry button. */
    method AddSubIndustry(sector: string, industry: string, name: string) returns (accepted: bool)
      requires Valid() && HasIndustry(sectors, sector, industry)
      modifies this
      ensures Valid()
      ensures accepted <==> name != "" && !HasKey(SubsAt(old(sectors), sector, industry), name)
      ensures SameExcept(old(sectors), sectors, sector)
      ensures SameExcept(At(old(sectors), sector), At(sectors, sector), industry)
      ensures SubsAt(sectors, sector, industry) ==
        if accepted then SubsAt(old(sectors), sector, industry) + [(name, [])]
        else SubsAt(old(sectors), sector, industry)
      ensures SavedIff(accepted)
    {
      var subs := SubsAt(sectors, sector, industry);
      accepted := name != "" && !HasKey(subs, name);
      if accepted {
        IndustriesOfSector(sectors, sector);
        PutKeepsDistinct(subs, name, []);
        SetSubs(sector, industry, Put(subs, name, []));
        SaveData();
      } else {
        PutChangesOneKey(sectors, sector, At(sectors, sector));
        PutChangesOneKey(At(sectors, sector), industry, subs);
      }
    }

    /** The Add Stock button, offered when the chosen industry has at least one
        sub-industry: the symbol is appended unless it is empty or already in
        the list. */
    method AddStock(sector: string, industry: string, sub: string, symbol: string) returns (accepted: bool)
      requires Valid() && HasSub(sectors, sector, industry, sub)
      modifies this
      ensures Valid()
      ensures accepted <==> symbol != "" && Bare(symbol) !in StocksAt(old(sectors), sector, industry, sub)
      ensures SameExcept(old(sectors), sectors, sector)
      ensures SameExcept(At(old(sectors), sector), At(sectors, sector), industry)
      ensures SameExcept(SubsAt(old(sectors), sector, industry), SubsAt(sectors, sector, industry), sub)
      ensures StocksAt(sectors, sector, industry, sub) ==
        if accepted then StocksAt(old(sectors), sector, industry, sub) + [Bare(symbol)]
        else StocksAt(old(sectors), sector, industry, sub)
      ensures SavedIff(accepted)
    {
      var subs := SubsAt(sectors, sector, industry);
      var stocks := At(subs, sub);
      accepted := symbol != "" && Bare(symbol) !in stocks;
      if accepted {
        IndustriesOfSector(sectors, sector);
        PutKeepsDistinct(subs, sub, stocks + [Bare(symbol)]);
        PutChangesOneKey(subs, sub, stocks + [Bare(symbol)]);
        SetSubs(sector, industry, Put(subs, sub, stocks + [Bare(symbol)]));
        SaveData();
      } else {
        PutChangesOneKey(sectors, sector, At(sectors, sector));
        PutChangesOneKey(At(sectors, sector), industry, subs);
        PutChangesOneKey(subs, sub, stocks);
      }
    }

    /** The display loop: the sector at position `i` in insertion order goes
        into column `i % 8`, below the sectors placed there before it. */
    method DisplayColumns() returns (columns: seq<seq<string>>)
      ensures ColumnsHold(columns, Keys(sectors), |sectors|)
    {
      var names := Keys(sectors);
      columns := seq(8, c => []);
      var i := 0;
      while i < |names|
        invariant 0 <= i <= |names|
        invariant ColumnsHold(columns, names, i)
      {
        PlaceNext(columns, names, i);
        columns := columns[i % 8 := columns[i % 8] + [names[i]]];
        i := i + 1;
      }
    }
  }
}
