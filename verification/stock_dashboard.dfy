/** The sector / industry / sub-industry / stock editor of the stock
    dashboard page.

    The hierarchy is held in the session and changed in place by the sidebar
    buttons; every accepted change is written back to `sectors.json` with
    `save_data`. Each button branch is one method of `Dashboard` whose
    parameters are the values picked in the select boxes and typed into the
    text inputs.
 */
module StockDashboard {
  import opened Dicts
  import opened Stocks

  /** An industry is either a grouping of named sub-industries, each holding a
      stock list (a JSON object), or a leaf holding a stock list directly (a
      JSON array). */
  datatype Industry = Grouping(subs: Dict<string, seq<Stock>>) | Leaf(stocks: seq<Stock>)

  type Industries = Dict<string, Industry>

  type Sectors = Dict<string, Industries>

  predicate IndustryOk(n: Industry)
  {
    n.Grouping? ==> DistinctKeys(n.subs)
  }

  predicate IndustriesOk(m: Industries)
  {
    DistinctKeys(m) && forall p :: p in m ==> IndustryOk(p.1)
  }

  /** What every loaded JSON document satisfies: no repeated key at any level. */
  predicate WellFormed(s: Sectors)
  {
    DistinctKeys(s) && forall p :: p in s ==> IndustriesOk(p.1)
  }

  predicate HasIndustry(s: Sectors, sector: string, industry: string)
  {
    HasKey(s, sector) && HasKey(At(s, sector), industry)
  }

  /** `sectors[sector][industry]` */
  function NodeAt(s: Sectors, sector: string, industry: string): Industry
    requires HasIndustry(s, sector, industry)
  {
    At(At(s, sector), industry)
  }

  /** A select box over `[""] + list(d.keys())` gives the empty placeholder
      or one of the keys. */
  predicate Picked<V>(m: Dict<string, V>, k: string)
  {
    k == "" || HasKey(m, k)
  }

  /** The stocks listed directly under an industry: those of a leaf, none for a
      grouping. */
  function LeafStocks(n: Industry): seq<Stock>
  {
    if n.Leaf? then n.stocks else []
  }

  predicate HasSub(s: Sectors, sector: string, industry: string, sub: string)
  {
    HasIndustry(s, sector, industry) && NodeAt(s, sector, industry).Grouping? &&
    HasKey(NodeAt(s, sector, industry).subs, sub)
  }

  /** `sectors[sector][industry][sub]` */
  function SubStocks(s: Sectors, sector: string, industry: string, sub: string): seq<Stock>
    requires HasSub(s, sector, industry, sub)
  {
    At(NodeAt(s, sector, industry).subs, sub)
  }

  /** `s1` differs from `s0` at most in the node of one industry. */
  ghost predicate OnlyNodeChanged(s0: Sectors, s1: Sectors, sector: string, industry: string)
    requires HasKey(s0, sector)
  {
    SameExcept(s0, s1, sector) && SameExcept(At(s0, sector), At(s1, sector), industry)
  }

  /** A leaf stays a leaf, and a grouping that holds sub-industries stays a
      grouping. */
  ghost predicate ShapeKept(n0: Industry, n1: Industry)
  {
    (n0.Leaf? ==> n1.Leaf?) && (n0.Grouping? && n0.subs != [] ==> n1.Grouping?)
  }

  /** Every industry present before and after keeps its shape. */
  ghost predicate ShapesKept(s0: Sectors, s1: Sectors)
  {
    forall sector, industry :: HasIndustry(s0, sector, industry) && HasIndustry(s1, sector, industry) ==>
      ShapeKept(NodeAt(s0, sector, industry), NodeAt(s1, sector, industry))
  }

  lemma IndustriesOfSector(s: Sectors, sector: string)
    requires WellFormed(s) && HasKey(s, sector)
    ensures IndustriesOk(At(s, sector))
  {
  }

  /** Replacing the industries of one sector by well-formed ones keeps the
      hierarchy well formed. */
  lemma PutIndustriesKeepsWellFormed(s: Sectors, sector: string, ind: Industries)
    requires WellFormed(s) && IndustriesOk(ind)
    ensures WellFormed(Put(s, sector, ind))
  {
    PutKeepsDistinct(s, sector, ind);
    PutPairs(s, sector, ind);
  }

  lemma PutNodeKeepsIndustriesOk(m: Industries, industry: string, n: Industry)
    requires IndustriesOk(m) && IndustryOk(n)
    ensures IndustriesOk(Put(m, industry, n))
  {
    PutKeepsDistinct(m, industry, n);
    PutPairs(m, industry, n);
  }

  lemma DelKeepsWellFormed(s: Sectors, sector: string)
    requires WellFormed(s)
    ensures WellFormed(Del(s, sector))
  {
    DelKeepsDistinct(s, sector);
    DelPairs(s, sector);
  }

  lemma DelIndustryKeepsIndustriesOk(m: Industries, industry: string)
    requires IndustriesOk(m)
    ensures IndustriesOk(Del(m, industry))
  {
    DelKeepsDistinct(m, industry);
    DelPairs(m, industry);
  }

  /** A change confined to one sector, and within it to one industry, keeps the
      shape of every other industry, so the hierarchy keeps its shapes when
      that industry does. */
  lemma {:induction false} ChangeInOneIndustryKeepsShapes(s0: Sectors, s1: Sectors, sector: string, industry: string)
    requires HasKey(s0, sector) && HasKey(s1, sector)
    requires forall j :: j != sector ==> Get(s1, j) == Get(s0, j)
    requires forall j :: j != industry ==> Get(At(s1, sector), j) == Get(At(s0, sector), j)
    requires HasIndustry(s0, sector, industry) && HasIndustry(s1, sector, industry) ==>
      ShapeKept(NodeAt(s0, sector, industry), NodeAt(s1, sector, industry))
    ensures ShapesKept(s0, s1)
  {
    forall sec, ind | HasIndustry(s0, sec, ind) && HasIndustry(s1, sec, ind)
      ensures ShapeKept(NodeAt(s0, sec, ind), NodeAt(s1, sec, ind))
    {
      if sec != sector {
        assert Get(s1, sec) == Get(s0, sec);
      } else if ind != industry {
        assert Get(At(s1, sector), ind) == Get(At(s0, sector), ind);
      }
    }
  }

  /** A change confined to one sector that is absent before or after keeps
      every shape. */
  lemma {:induction false} ChangeInOneSectorKeepsShapes(s0: Sectors, s1: Sectors, sector: string)
    requires forall j :: j != sector ==> Get(s1, j) == Get(s0, j)
    requires !HasKey(s0, sector) || !HasKey(s1, sector)
    ensures ShapesKept(s0, s1)
  {
    forall sec, ind | HasIndustry(s0, sec, ind) && HasIndustry(s1, sec, ind)
      ensures ShapeKept(NodeAt(s0, sec, ind), NodeAt(s1, sec, ind))
    {
      assert Get(s1, sec) == Get(s0, sec);
    }
  }

  /** Outcome of the Add Sub-Industry button: added, refused because the name
      is empty or taken, or refused because the industry holds stocks directly. */
  datatype SubIndustryOutcome = SubIndustryAdded | ExistsOrInvalid | HasDirectStocks

  class Dashboard {
    /** The hierarchy held in the session. */
    var sectors: Sectors
    /** The content of `sectors.json`; `None` while the file does not exist. */
    ghost var stored: Option<Sectors>
    /** The number of calls of `save_data` so far. */
    ghost var saves: nat

    ghost predicate Valid()
      reads this
    {
      WellFormed(sectors)
    }

    /** `save_data` is called exactly once, writing the in-memory hierarchy, when
        `accepted`, and is not called otherwise. */
    twostate predicate SavedIff(accepted: bool)
      reads this
    {
      if accepted then stored == Some(sectors) && saves == old(saves) + 1
      else stored == old(stored) && saves == old(saves)
    }

    /** `load_data`: the stored document, or an empty hierarchy when there is
        no file. */
    constructor Load(file: Option<Sectors>)
      requires file.Some? ==> WellFormed(file.value)
      ensures Valid()
      ensures sectors == if file.Some? then file.value else []
      ensures stored == file && saves == 0
    {
      sectors := if file.Some? then file.value else [];
      stored := file;
      saves := 0;
    }

    /** `save_data(sectors)` */
    ghost method SaveData()
      modifies this`stored, this`saves
      ensures stored == Some(sectors) && saves == old(saves) + 1
    {
      stored := Some(sectors);
      saves := saves + 1;
    }

    /** `sectors[sector] = industries` (the in-place update of one sector's
        dictionary). */
    method SetIndustries(sector: string, industries: Industries)
      requires Valid() && HasKey(sectors, sector) && IndustriesOk(industries)
      modifies this`sectors
      ensures Valid()
      ensures SameExcept(old(sectors), sectors, sector)
      ensures At(sectors, sector) == industries
    {
      PutIndustriesKeepsWellFormed(sectors, sector, industries);
      PutChangesOneKey(sectors, sector, industries);
      sectors := Put(sectors, sector, industries);
    }

    /** `sectors[sector][industry] = node` */
    method SetNode(sector: string, industry: string, node: Industry)
      requires Valid() && HasIndustry(sectors, sector, industry) && IndustryOk(node)
      modifies this`sectors
      ensures Valid()
      ensures OnlyNodeChanged(old(sectors), sectors, sector, industry)
      ensures NodeAt(sectors, sector, industry) == node
      ensures ShapeKept(NodeAt(old(sectors), sector, industry), node) ==> ShapesKept(old(sectors), sectors)
    {
      var industries := At(sectors, sector);
      IndustriesOfSector(sectors, sector);
      PutNodeKeepsIndustriesOk(industries, industry, node);
      PutChangesOneKey(industries, industry, node);
      ghost var before := sectors;
      SetIndustries(sector, Put(industries, industry, node));
      if ShapeKept(NodeAt(before, sector, industry), node) {
        ChangeInOneIndustryKeepsShapes(before, sectors, sector, industry);
      }
    }

    /** `sectors[sector][industry][sub] = stocks` on a grouping. */
    method SetSubStocks(sector: string, industry: string, sub: string, stocks: seq<Stock>)
      requires Valid() && HasIndustry(sectors, sector, industry)
      requires NodeAt(sectors, sector, industry).Grouping?
      modifies this`sectors
      ensures Valid() && ShapesKept(old(sectors), sectors)
      ensures OnlyNodeChanged(old(sectors), sectors, sector, industry)
      ensures NodeAt(sectors, sector, industry).Grouping?
      ensures NodeAt(sectors, sector, industry).subs == Put(NodeAt(old(sectors), sector, industry).subs, sub, stocks)
    {
      var subs := NodeAt(sectors, sector, industry).subs;
      IndustriesOfSector(sectors, sector);
      assert IndustryOk(NodeAt(sectors, sector, industry));
      PutKeepsDistinct(subs, sub, stocks);
      SetNode(sector, industry, Grouping(Put(subs, sub, stocks)));
    }

    /** The Add Sector button. */
    method AddSector(name: string) returns (accepted: bool)
      requires Valid()
      modifies this
      ensures Valid() && ShapesKept(old(sectors), sectors)
      ensures accepted <==> name != "" && !HasKey(old(sectors), name)
      ensures sectors == if accepted then old(sectors) + [(name, [])] else old(sectors)
      ensures SavedIff(accepted)
    {
      accepted := name != "" && !HasKey(sectors, name);
      if accepted {
        PutIndustriesKeepsWellFormed(sectors, name, []);
        PutChangesOneKey(sectors, name, []);
        ChangeInOneSectorKeepsShapes(sectors, Put(sectors, name, []), name);
        sectors := Put(sectors, name, []);
        SaveData();
      }
    }

    /** The Add Industry button: a new industry starts as an empty grouping. */
    method AddIndustry(sector: string, name: string) returns (accepted: bool)
      requires Valid() && HasKey(sectors, sector)
      modifies this
      ensures Valid() && ShapesKept(old(sectors), sectors)
      ensures accepted <==> name != "" && !HasKey(At(old(sectors), sector), name)
      ensures SameExcept(old(sectors), sectors, sector)
      ensures At(sectors, sector) ==
        if accepted then At(old(sectors), sector) + [(name, Grouping([]))] else At(old(sectors), sector)
      ensures SavedIff(accepted)
    {
      var industries := At(sectors, sector);
      accepted := name != "" && !HasKey(industries, name);
      if accepted {
        IndustriesOfSector(sectors, sector);
        PutNodeKeepsIndustriesOk(industries, name, Grouping([]));
        PutChangesOneKey(industries, name, Grouping([]));
        ghost var before := sectors;
        SetIndustries(sector, Put(industries, name, Grouping([])));
        ChangeInOneIndustryKeepsShapes(before, sectors, sector, name);
        SaveData();
      }
    }

    /** The Add Sub-Industry button: refused on a leaf, even an empty one. */
    method AddSubIndustry(sector: string, industry: string, name: string) returns (outcome: SubIndustryOutcome)
      requires Valid() && HasIndustry(sectors, sector, industry)
      modifies this
      ensures Valid() && ShapesKept(old(sectors), sectors)
      ensures outcome == HasDirectStocks <==> NodeAt(old(sectors), sector, industry).Leaf?
      ensures outcome == SubIndustryAdded <==>
        && NodeAt(old(sectors), sector, industry).Grouping?
        && name != ""
        && !HasKey(NodeAt(old(sectors), sector, industry).subs, name)
      ensures OnlyNodeChanged(old(sectors), sectors, sector, industry)
      ensures NodeAt(sectors, sector, industry) ==
        if outcome == SubIndustryAdded then Grouping(NodeAt(old(sectors), sector, industry).subs + [(name, [])])
        else NodeAt(old(sectors), sector, industry)
      ensures SavedIff(outcome == SubIndustryAdded)
    {
      var node := NodeAt(sectors, sector, industry);
      if node.Grouping? {
        if name != "" && !HasKey(node.subs, name) {
          SetSubStocks(sector, industry, name, []);
          SaveData();
          outcome := SubIndustryAdded;
        } else {
          outcome := ExistsOrInvalid;
          PutChangesOneKey(sectors, sector, At(sectors, sector));
        }
      } else {
        outcome := HasDirectStocks;
      }
    }

    /** The Add Stock button on an industry that holds sub-industries: the
        typed symbol is appended to the chosen sub-industry unless it is empty
        or equal to an entry already there. */
    method AddStock(sector: string, industry: string, sub: string, symbol: string) returns (accepted: bool)
      requires Valid() && HasSub(sectors, sector, industry, sub)
      modifies this
      ensures Valid() && ShapesKept(old(sectors), sectors)
      ensures accepted <==> symbol != "" && IsNew(SubStocks(old(sectors), sector, industry, sub), symbol)
      ensures !accepted ==> sectors == old(sectors)
      ensures OnlyNodeChanged(old(sectors), sectors, sector, industry)
      ensures HasSub(sectors, sector, industry, sub)
      ensures SameExcept(NodeAt(old(sectors), sector, industry).subs, NodeAt(sectors, sector, industry).subs, sub)
      ensures SubStocks(sectors, sector, industry, sub) ==
        if accepted then SubStocks(old(sectors), sector, industry, sub) + [Bare(symbol)]
        else SubStocks(old(sectors), sector, industry, sub)
      ensures KeysUnique(SubStocks(old(sectors), sector, industry, sub)) ==> KeysUnique(SubStocks(sectors, sector, industry, sub))
      ensures SavedIff(accepted)
    {
      var stocks := SubStocks(sectors, sector, industry, sub);
      accepted := symbol != "" && IsNew(stocks, symbol);
      if accepted {
        if KeysUnique(stocks) {
          AppendNewKeepsKeysUnique(stocks, symbol);
        }
        PutChangesOneKey(NodeAt(sectors, sector, industry).subs, sub, stocks + [Bare(symbol)]);
        SetSubStocks(sector, industry, sub, stocks + [Bare(symbol)]);
        SaveData();
      } else {
        PutChangesOneKey(sectors, sector, At(sectors, sector));
      }
    }

    /** The Add Stock Directly button, offered on a leaf or on an empty
        grouping. An empty grouping is turned into an empty leaf first, even
        when the symbol is then refused (and that change is not saved). */
    method AddStockDirect(sector: string, industry: string, symbol: string) returns (accepted: bool)
      requires Valid() && HasIndustry(sectors, sector, industry)
      requires NodeAt(sectors, sector, industry).Leaf? || NodeAt(sectors, sector, industry) == Grouping([])
      modifies this
      ensures Valid() && ShapesKept(old(sectors), sectors)
      ensures accepted <==> symbol != "" && IsNew(LeafStocks(NodeAt(old(sectors), sector, industry)), symbol)
      ensures OnlyNodeChanged(old(sectors), sectors, sector, industry)
      ensures NodeAt(sectors, sector, industry) ==
        Leaf(if accepted then LeafStocks(NodeAt(old(sectors), sector, industry)) + [Bare(symbol)]
             else LeafStocks(NodeAt(old(sectors), sector, industry)))
      ensures KeysUnique(LeafStocks(NodeAt(old(sectors), sector, industry))) ==> KeysUnique(LeafStocks(NodeAt(sectors, sector, industry)))
      ensures SavedIff(accepted)
    {
      ghost var before := sectors;
      var node := NodeAt(sectors, sector, industry);
      if node.Grouping? {
        SetNode(sector, industry, Leaf([]));
        node := Leaf([]);
      } else {
        PutChangesOneKey(sectors, sector, At(sectors, sector));
        PutChangesOneKey(At(sectors, sector), industry, node);
      }
      accepted := symbol != "" && IsNew(node.stocks, symbol);
      if accepted {
        if KeysUnique(node.stocks) {
          AppendNewKeepsKeysUnique(node.stocks, symbol);
        }
        SetNode(sector, industry, Leaf(node.stocks + [Bare(symbol)]));
        SaveData();
      }
      ChangeInOneIndustryKeepsShapes(before, sectors, sector, industry);
    }

    /** The Delete Sector button: the sector goes with everything under it. */
    method DeleteSector(name: string) returns (accepted: bool)
      requires Valid()
      modifies this
      ensures Valid() && ShapesKept(old(sectors), sectors)
      ensures accepted <==> name != "" && HasKey(old(sectors), name)
      ensures sectors == if accepted then Del(old(sectors), name) else old(sectors)
      ensures accepted ==> !HasKey(sectors, name)
      ensures accepted ==> |sectors| == |old(sectors)| - 1
      ensures forall j :: j != name ==> Get(sectors, j) == Get(old(sectors), j)
      ensures SavedIff(accepted)
    {
      accepted := false;
      if name != "" {
        if HasKey(sectors, name) {
          DelKeepsWellFormed(sectors, name);
          DelChangesOneKey(sectors, name);
          DelRemovesOnePair(sectors, name);
          ChangeInOneSectorKeepsShapes(sectors, Del(sectors, name), name);
          sectors := Del(sectors, name);
          SaveData();
          accepted := true;
        }
      }
    }

    /** The Delete Industry button. */
    method DeleteIndustry(sector: string, name: string) returns (accepted: bool)
      requires Valid() && Picked(sectors, sector)
      modifies this
      ensures Valid() && ShapesKept(old(sectors), sectors)
      ensures accepted <==> sector != "" && name != "" && HasKey(At(old(sectors), sector), name)
      ensures !accepted ==> sectors == old(sectors)
      ensures accepted ==> SameExcept(old(sectors), sectors, sector)
      ensures accepted ==> At(sectors, sector) == Del(At(old(sectors), sector), name)
      ensures accepted ==> forall j :: j != name ==> Get(At(sectors, sector), j) == Get(At(old(sectors), sector), j)
      ensures SavedIff(accepted)
    {
      accepted := false;
      if sector != "" {
        var industries := At(sectors, sector);
        if industries != [] && name != "" && HasKey(industries, name) {
          IndustriesOfSector(sectors, sector);
          DelIndustryKeepsIndustriesOk(industries, name);
          DelChangesOneKey(industries, name);
          ghost var before := sectors;
          SetIndustries(sector, Del(industries, name));
          ChangeInOneIndustryKeepsShapes(before, sectors, sector, name);
          SaveData();
          accepted := true;
        }
      }
    }

    /** The Delete Sub-Industry button, offered on a grouping that holds
        sub-industries. */
    method DeleteSubIndustry(sector: string, industry: string, name: string) returns (accepted: bool)
      requires Valid() && Picked(sectors, sector)
      requires sector != "" ==> Picked(At(sectors, sector), industry)
      modifies this
      ensures Valid() && ShapesKept(old(sectors), sectors)
      ensures accepted <==>
        && sector != "" && industry != ""
        && NodeAt(old(sectors), sector, industry).Grouping?
        && name != "" && HasKey(NodeAt(old(sectors), sector, industry).subs, name)
      ensures !accepted ==> sectors == old(sectors)
      ensures accepted ==> OnlyNodeChanged(old(sectors), sectors, sector, industry)
      ensures accepted ==> NodeAt(sectors, sector, industry) == Grouping(Del(NodeAt(old(sectors), sector, industry).subs, name))
      ensures accepted ==> forall j :: j != name ==>
        Get(NodeAt(sectors, sector, industry).subs, j) == Get(NodeAt(old(sectors), sector, industry).subs, j)
      ensures SavedIff(accepted)
    {
      accepted := false;
      if sector != "" {
        var industries := At(sectors, sector);
        if industries != [] && industry != "" {
          var node := At(industries, industry);
          if node.Grouping? && node.subs != [] && name != "" && HasKey(node.subs, name) {
            IndustriesOfSector(sectors, sector);
            assert IndustryOk(node);
            DelKeepsDistinct(node.subs, name);
            DelChangesOneKey(node.subs, name);
            SetNode(sector, industry, Grouping(Del(node.subs, name)));
            SaveData();
            accepted := true;
          }
        }
      }
    }

    /** The Delete Stock button, offered under a sub-industry: the first entry
        equal to the chosen one is removed. The choice is the placeholder or an
        entry of the list. */
    method DeleteStock(sector: string, industry: string, sub: string, entry: Stock) returns (accepted: bool)
      requires Valid() && Picked(sectors, sector)
      requires sector != "" ==> Picked(At(sectors, sector), industry)
      requires sector != "" && industry != "" && NodeAt(sectors, sector, industry).Grouping? ==>
        Picked(NodeAt(sectors, sector, industry).subs, sub)
      requires sector != "" && industry != "" && NodeAt(sectors, sector, industry).Grouping? && sub != "" ==>
        entry == Bare("") || entry in SubStocks(sectors, sector, industry, sub)
      modifies this
      ensures Valid() && ShapesKept(old(sectors), sectors)
      ensures accepted <==>
        sector != "" && industry != "" && NodeAt(old(sectors), sector, industry).Grouping? && sub != "" && Truthy(entry)
      ensures !accepted ==> sectors == old(sectors)
      ensures accepted ==> OnlyNodeChanged(old(sectors), sectors, sector, industry)
      ensures accepted ==> HasSub(sectors, sector, industry, sub)
      ensures accepted ==> SameExcept(NodeAt(old(sectors), sector, industry).subs, NodeAt(sectors, sector, industry).subs, sub)
      ensures accepted ==> SubStocks(sectors, sector, industry, sub) == RemoveFirst(SubStocks(old(sectors), sector, industry, sub), entry)
      ensures accepted && KeysUnique(SubStocks(old(sectors), sector, industry, sub)) ==> KeysUnique(SubStocks(sectors, sector, industry, sub))
      ensures SavedIff(accepted)
    {
      accepted := false;
      if sector != "" {
        var industries := At(sectors, sector);
        if industries != [] && industry != "" {
          var node := At(industries, industry);
          if node.Grouping? && node.subs != [] && sub != "" {
            var stocks := At(node.subs, sub);
            if stocks != [] && Truthy(entry) {
              if KeysUnique(stocks) {
                RemoveFirstKeepsKeysUnique(stocks, entry);
              }
              PutChangesOneKey(node.subs, sub, RemoveFirst(stocks, entry));
              SetSubStocks(sector, industry, sub, RemoveFirst(stocks, entry));
              SaveData();
              accepted := true;
            }
          }
        }
      }
    }

    /** The Delete Stock Directly button, offered on a leaf that holds stocks. */
    method DeleteStockDirect(sector: string, industry: string, entry: Stock) returns (accepted: bool)
      requires Valid() && Picked(sectors, sector)
      requires sector != "" ==> Picked(At(sectors, sector), industry)
      requires sector != "" && industry != "" && NodeAt(sectors, sector, industry).Leaf? ==>
        entry == Bare("") || entry in NodeAt(sectors, sector, industry).stocks
      modifies this
      ensures Valid() && ShapesKept(old(sectors), sectors)
      ensures accepted <==>
        sector != "" && industry != "" && NodeAt(old(sectors), sector, industry).Leaf? && Truthy(entry)
      ensures !accepted ==> sectors == old(sectors)
      ensures accepted ==> OnlyNodeChanged(old(sectors), sectors, sector, industry)
      ensures accepted ==> NodeAt(sectors, sector, industry) == Leaf(RemoveFirst(NodeAt(old(sectors), sector, industry).stocks, entry))
      ensures accepted && KeysUnique(NodeAt(old(sectors), sector, industry).stocks) ==> KeysUnique(NodeAt(sectors, sector, industry).stocks)
      ensures SavedIff(accepted)
    {
      accepted := false;
      if sector != "" {
        var industries := At(sectors, sector);
        if industries != [] && industry != "" {
          var node := At(industries, industry);
          if node.Leaf? && node.stocks != [] && Truthy(entry) {
            if KeysUnique(node.stocks) {
              RemoveFirstKeepsKeysUnique(node.stocks, entry);
            }
            SetNode(sector, industry, Leaf(RemoveFirst(node.stocks, entry)));
            SaveData();
            accepted := true;
          }
        }
      }
    }
  }
}
