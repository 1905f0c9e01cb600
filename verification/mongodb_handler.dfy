/**
 * `MongoDBHandler`: the connection string rewrite of its constructor and
 * `update_company_financials`, which turns a fetched snapshot into a `$set` document over the
 * `tradingViewData.*` paths of a company record and reports whether a record was modified. The
 * store is a parameter: `reply` is what `update_one` answers, `now` what `datetime.utcnow()` gives.
 */
module MongoHandler {
  import opened Wrappers
  import opened Strings
  import opened Json
  import Snapshot

  /** How a document entry reads its source key: the value as is, or `safe_get_first_value` of it. */
  datatype Pick = Whole | First

  /** One entry of the update document: the field under `tradingViewData.` and where its value comes from. */
  datatype Entry = Entry(field: string, source: string, pick: Pick)

  const PATH_PREFIX := "tradingViewData."
  const LAST_UPDATED := "lastUpdated"

  /** Company information, shares information and financial year information. */
  const GENERAL_ENTRIES: seq<Entry> := [
    Entry("businessSummary", "business_description", Whole),
    Entry("website", "web_site_url", Whole),
    Entry("numberOfShares", "total_shares_outstanding_fy", Whole),
    Entry("financialYearHistoryYearly", "fiscal_period_fy_h", Whole),
    Entry("financialYearHistoryQuarterly", "fiscal_period_fq_h", Whole),
    Entry("financialYearEndHistoryYearly", "fiscal_period_end_fy_h", Whole),
    Entry("financialYearEndHistoryQuarterly", "fiscal_period_end_fq_h", Whole)
  ]

  /** Balance sheet items: assets and liabilities. */
  const ASSET_AND_LIABILITY_ENTRIES: seq<Entry> := [
    Entry("totalAssets", "total_assets_fy_h", First),
    Entry("totalAssetsHistoryYearly", "total_assets_fy_h", Whole),
    Entry("totalAssetsHistoryQuarterly", "total_assets_fq_h", Whole),
    Entry("totalCurrentAssets", "total_current_assets_fy_h", First),
    Entry("totalCurrentAssetsHistoryYearly", "total_current_assets_fy_h", Whole),
    Entry("totalCurrentAssetsHistoryQuarterly", "total_current_assets_fq_h", Whole),
    Entry("totalLiabilities", "total_liabilities_fy_h", First),
    Entry("totalLiabilitiesHistoryYearly", "total_liabilities_fy_h", Whole),
    Entry("totalLiabilitiesHistoryQuarterly", "total_liabilities_fq_h", Whole),
    Entry("totalCurrentLiabilities", "total_current_liabilities_fy_h", First),
    Entry("totalCurrentLiabilitiesHistoryYearly", "total_current_liabilities_fy_h", Whole),
    Entry("totalCurrentLiabilitiesHistoryQuarterly", "total_current_liabilities_fq_h", Whole)
  ]

  /** Balance sheet items: equity and debt. */
  const EQUITY_AND_DEBT_ENTRIES: seq<Entry> := [
    Entry("totalEquity", "total_equity_fy_h", First),
    Entry("totalEquityHistoryYearly", "total_equity_fy_h", Whole),
    Entry("totalEquityHistoryQuarterly", "total_equity_fq_h", Whole),
    Entry("shareHoldersEquity", "shrhldrs_equity_fy_h", First),
    Entry("shareHoldersEquityHistoryYearly", "shrhldrs_equity_fy_h", Whole),
    Entry("shareHoldersEquityHistoryQuarterly", "shrhldrs_equity_fq_h", Whole),
    Entry("totalDebt", "total_debt_fy_h", First),
    Entry("totalDebtHistoryYearly", "total_debt_fy_h", Whole),
    Entry("totalDebtHistoryQuarterly", "total_debt_fq_h", Whole),
    Entry("netDebt", "net_debt_fy_h", First),
    Entry("netDebtHistoryYearly", "net_debt_fy_h", Whole),
    Entry("netDebtHistoryQuarterly", "net_debt_fq_h", Whole)
  ]

  /** Income statement items. */
  const INCOME_ENTRIES: seq<Entry> := [
    Entry("totalRevenue", "total_revenue_fy_h", First),
    Entry("totalRevenueHistoryYearly", "total_revenue_fy_h", Whole),
    Entry("totalRevenueHistoryQuarterly", "total_revenue_fq_h", Whole),
    Entry("totalProfitBeforeTax", "net_income_starting_line_fy_h", First),
    Entry("totalProfitBeforeTaxHistoryYearly", "net_income_starting_line_fy_h", Whole),
    Entry("totalProfitBeforeTaxHistoryQuarterly", "net_income_starting_line_fq_h", Whole),
    Entry("netIncome", "net_income_fy_h", First),
    Entry("netIncomeHistoryYearly", "net_income_fy_h", Whole),
    Entry("netIncomeHistoryQuarterly", "net_income_fq_h", Whole),
    Entry("incomeTax", "income_tax_fy_h", First),
    Entry("incomeTaxHistoryYearly", "income_tax_fy_h", Whole),
    Entry("incomeTaxHistoryQuarterly", "income_tax_fq_h", Whole)
  ]

  /** Profitability ratios. */
  const PROFITABILITY_ENTRIES: seq<Entry> := [
    Entry("returnOnAssets", "return_on_assets_fy_h", First),
    Entry("returnOnAssetsHistoryYearly", "return_on_assets_fy_h", Whole),
    Entry("returnOnAssetsHistoryQuarterly", "return_on_assets_fq_h", Whole),
    Entry("returnOnEquity", "return_on_equity_fy_h", First),
    Entry("returnOnEquityHistoryYearly", "return_on_equity_fy_h", Whole),
    Entry("returnOnEquityHistoryQuarterly", "return_on_equity_fq_h", Whole),
    Entry("netMargin", "net_margin_fy_h", First),
    Entry("netMarginHistoryYearly", "net_margin_fy_h", Whole),
    Entry("netMarginHistoryQuarterly", "net_margin_fq_h", Whole)
  ]

  /** Leverage and liquidity ratios. */
  const LEVERAGE_AND_LIQUIDITY_ENTRIES: seq<Entry> := [
    Entry("debtToAsset", "debt_to_asset_fy_h", First),
    Entry("debtToAssetHistoryYearly", "debt_to_asset_fy_h", Whole),
    Entry("debtToAssetHistoryQuarterly", "debt_to_asset_fq_h", Whole),
    Entry("debtToEquity", "debt_to_equity_fy_h", First),
    Entry("debtToEquityHistoryYearly", "debt_to_equity_fy_h", Whole),
    Entry("debtToEquityHistoryQuarterly", "debt_to_equity_fq_h", Whole),
    Entry("currentRatio", "current_ratio_fy_h", First),
    Entry("currentRatioHistoryYearly", "current_ratio_fy_h", Whole),
    Entry("currentRatioHistoryQuarterly", "current_ratio_fq_h", Whole)
  ]

  /** Per share metrics and valuation ratios. */
  const PER_SHARE_AND_VALUATION_ENTRIES: seq<Entry> := [
    Entry("netAssetsPerShare", "book_value_per_share_fy_h", First),
    Entry("netAssetsPerShareHistoryYearly", "book_value_per_share_fy_h", Whole),
    Entry("netAssetsPerShareHistoryQuarterly", "book_value_per_share_fq_h", Whole),
    Entry("earningsPerShare", "earnings_per_share_diluted_fy_h", First),
    Entry("earningsPerShareHistoryYearly", "earnings_per_share_diluted_fy_h", Whole),
    Entry("earningsPerShareHistoryQuarterly", "earnings_per_share_diluted_fq_h", Whole),
    Entry("priceToBookValue", "price_book_fy_h", First),
    Entry("priceToBookValueHistoryYearly", "price_book_fy_h", Whole),
    Entry("priceToBookValueHistoryQuarterly", "price_book_fq_h", Whole),
    Entry("priceEarningsRatio", "price_earnings_fy_h", First),
    Entry("priceEarningsRatioHistoryYearly", "price_earnings_fy_h", Whole),
    Entry("priceEarningsRatioHistoryQuarterly", "price_earnings_fq_h", Whole)
  ]

  /** Dividend information. */
  const DIVIDEND_ENTRIES: seq<Entry> := [
    Entry("dividendAvailability", "dividends_availability", Whole),
    Entry("dividendPerShare", "dividend_amount_h", First),
    Entry("dividendPerShareHistory", "dividend_amount_h", Whole),
    Entry("dividendPayoutRatio", "dividend_payout_ratio_fy_h", First),
    Entry("dividendPayoutRatioHistoryYearly", "dividend_payout_ratio_fy_h", Whole),
    Entry("dividendPayoutRatioHistoryQuarterly", "dividend_payout_ratio_fq_h", Whole),
    Entry("dividendYield", "dividends_yield_fy_h", First),
    Entry("dividendYieldHistoryYearly", "dividends_yield_fy_h", Whole),
    Entry("dividendXdDate", "dividend_ex_date_h", First),
    Entry("dividendXdDateHistory", "dividend_ex_date_h", Whole),
    Entry("dividendPaymentDate", "dividend_payment_date_h", First),
    Entry("dividendPaymentDateHistory", "dividend_payment_date_h", Whole),
    Entry("dividendTypeHistory", "dividend_type_h", Whole)
  ]

  /** The entries of the update document literal, in its order (`lastUpdated` is added separately). */
  const UPDATE_LAYOUT: seq<Entry> :=
    GENERAL_ENTRIES + ASSET_AND_LIABILITY_ENTRIES + EQUITY_AND_DEBT_ENTRIES + INCOME_ENTRIES +
    PROFITABILITY_ENTRIES + LEVERAGE_AND_LIQUIDITY_ENTRIES + PER_SHARE_AND_VALUATION_ENTRIES + DIVIDEND_ENTRIES

  function Path(e: Entry): string {
    PATH_PREFIX + e.field
  }

  predicate DistinctFields(entries: seq<Entry>) {
    forall i, j :: 0 <= i < j < |entries| ==> entries[i].field != entries[j].field
  }

  predicate DisjointFields(a: seq<Entry>, b: seq<Entry>) {
    forall i, j :: 0 <= i < |a| && 0 <= j < |b| ==> a[i].field != b[j].field
  }

  lemma DistinctAppend(a: seq<Entry>, b: seq<Entry>)
    requires DistinctFields(a) && DistinctFields(b) && DisjointFields(a, b)
    ensures DistinctFields(a + b)
  {
    forall i, j | 0 <= i < j < |a + b| ensures (a + b)[i].field != (a + b)[j].field {
      if j < |a| {
        assert (a + b)[i] == a[i] && (a + b)[j] == a[j];
      } else if i >= |a| {
        assert (a + b)[i] == b[i - |a|] && (a + b)[j] == b[j - |a|];
      } else {
        assert (a + b)[i] == a[i] && (a + b)[j] == b[j - |a|];
      }
    }
  }

  lemma DisjointAppend(a: seq<Entry>, b: seq<Entry>, c: seq<Entry>)
    requires DisjointFields(a, c) && DisjointFields(b, c)
    ensures DisjointFields(a + b, c)
  {
    forall i, j | 0 <= i < |a + b| && 0 <= j < |c| ensures (a + b)[i].field != c[j].field {
      if i < |a| {
        assert (a + b)[i] == a[i];
      } else {
        assert (a + b)[i] == b[i - |a|];
      }
    }
  }

  /** A sequence is free of repeats when both of its halves are and no field is in both. */
  lemma DistinctFromHalves(s: seq<Entry>, k: nat)
    requires k <= |s| && DistinctFields(s[..k]) && DistinctFields(s[k..]) && DisjointFields(s[..k], s[k..])
    ensures DistinctFields(s)
  {
    DistinctAppend(s[..k], s[k..]);
    assert s[..k] + s[k..] == s;
  }

  // Each section is checked on its own, and against every section before it.
  lemma GeneralDistinct()
    ensures DistinctFields(GENERAL_ENTRIES)
  {
  }

  lemma AssetsAndLiabilitiesDistinct()
    ensures DistinctFields(ASSET_AND_LIABILITY_ENTRIES)
  {
    AssetsAndLiabilitiesFront();
    AssetsAndLiabilitiesBack();
    AssetsAndLiabilitiesHalvesApart();
    DistinctFromHalves(ASSET_AND_LIABILITY_ENTRIES, 6);
  }

  lemma AssetsAndLiabilitiesFront()
    ensures DistinctFields(ASSET_AND_LIABILITY_ENTRIES[..6])
  {
  }

  lemma AssetsAndLiabilitiesBack()
    ensures DistinctFields(ASSET_AND_LIABILITY_ENTRIES[6..])
  {
  }

  lemma AssetsAndLiabilitiesHalvesApart()
    ensures DisjointFields(ASSET_AND_LIABILITY_ENTRIES[..6], ASSET_AND_LIABILITY_ENTRIES[6..])
  {
  }

  lemma EquityAndDebtDistinct()
    ensures DistinctFields(EQUITY_AND_DEBT_ENTRIES)
  {
    EquityAndDebtFront();
    EquityAndDebtBack();
    EquityAndDebtHalvesApart();
    DistinctFromHalves(EQUITY_AND_DEBT_ENTRIES, 6);
  }

  lemma EquityAndDebtFront()
    ensures DistinctFields(EQUITY_AND_DEBT_ENTRIES[..6])
  {
  }

  lemma EquityAndDebtBack()
    ensures DistinctFields(EQUITY_AND_DEBT_ENTRIES[6..])
  {
  }

  lemma EquityAndDebtHalvesApart()
    ensures DisjointFields(EQUITY_AND_DEBT_ENTRIES[..6], EQUITY_AND_DEBT_ENTRIES[6..])
  {
  }

  lemma IncomeDistinct()
    ensures DistinctFields(INCOME_ENTRIES)
  {
    IncomeFront();
    IncomeBack();
    IncomeHalvesApart();
    DistinctFromHalves(INCOME_ENTRIES, 6);
  }

  lemma IncomeFront()
    ensures DistinctFields(INCOME_ENTRIES[..6])
  {
  }

  lemma IncomeBack()
    ensures DistinctFields(INCOME_ENTRIES[6..])
  {
  }

  lemma IncomeHalvesApart()
    ensures DisjointFields(INCOME_ENTRIES[..6], INCOME_ENTRIES[6..])
  {
  }

  lemma ProfitabilityDistinct()
    ensures DistinctFields(PROFITABILITY_ENTRIES)
  {
  }

  lemma LeverageAndLiquidityDistinct()
    ensures DistinctFields(LEVERAGE_AND_LIQUIDITY_ENTRIES)
  {
  }

  lemma PerShareAndValuationDistinct()
    ensures DistinctFields(PER_SHARE_AND_VALUATION_ENTRIES)
  {
    PerShareAndValuationFront();
    PerShareAndValuationBack();
    PerShareAndValuationHalvesApart();
    DistinctFromHalves(PER_SHARE_AND_VALUATION_ENTRIES, 6);
  }

  lemma PerShareAndValuationFront()
    ensures DistinctFields(PER_SHARE_AND_VALUATION_ENTRIES[..6])
  {
  }

  lemma PerShareAndValuationBack()
    ensures DistinctFields(PER_SHARE_AND_VALUATION_ENTRIES[6..])
  {
  }

  lemma PerShareAndValuationHalvesApart()
    ensures DisjointFields(PER_SHARE_AND_VALUATION_ENTRIES[..6], PER_SHARE_AND_VALUATION_ENTRIES[6..])
  {
  }

  lemma DividendsDistinct()
    ensures DistinctFields(DIVIDEND_ENTRIES)
  {
    DividendsFront();
    DividendsBack();
    DividendsHalvesApart();
    DistinctFromHalves(DIVIDEND_ENTRIES, 6);
  }

  lemma DividendsFront()
    ensures DistinctFields(DIVIDEND_ENTRIES[..6])
  {
  }

  lemma DividendsBack()
    ensures DistinctFields(DIVIDEND_ENTRIES[6..])
  {
  }

  lemma DividendsHalvesApart()
    ensures DisjointFields(DIVIDEND_ENTRIES[..6], DIVIDEND_ENTRIES[6..])
  {
  }

  lemma AssetsAndLiabilitiesApartFromGeneral()
    ensures DisjointFields(GENERAL_ENTRIES, ASSET_AND_LIABILITY_ENTRIES)
  {
  }

  lemma EquityAndDebtApartFromGeneral()
    ensures DisjointFields(GENERAL_ENTRIES, EQUITY_AND_DEBT_ENTRIES)
  {
  }

  lemma EquityAndDebtApartFromAssetsAndLiabilities()
    ensures DisjointFields(ASSET_AND_LIABILITY_ENTRIES, EQUITY_AND_DEBT_ENTRIES)
  {
  }

  lemma IncomeApartFromGeneral()
    ensures DisjointFields(GENERAL_ENTRIES, INCOME_ENTRIES)
  {
  }

  lemma IncomeApartFromAssetsAndLiabilities()
    ensures DisjointFields(ASSET_AND_LIABILITY_ENTRIES, INCOME_ENTRIES)
  {
  }

  lemma IncomeApartFromEquityAndDebt()
    ensures DisjointFields(EQUITY_AND_DEBT_ENTRIES, INCOME_ENTRIES)
  {
  }

  lemma ProfitabilityApartFromGeneral()
    ensures DisjointFields(GENERAL_ENTRIES, PROFITABILITY_ENTRIES)
  {
  }

  lemma ProfitabilityApartFromAssetsAndLiabilities()
    ensures DisjointFields(ASSET_AND_LIABILITY_ENTRIES, PROFITABILITY_ENTRIES)
  {
  }

  lemma ProfitabilityApartFromEquityAndDebt()
    ensures DisjointFields(EQUITY_AND_DEBT_ENTRIES, PROFITABILITY_ENTRIES)
  {
  }

  lemma ProfitabilityApartFromIncome()
    ensures DisjointFields(INCOME_ENTRIES, PROFITABILITY_ENTRIES)
  {
  }

  lemma LeverageAndLiquidityApartFromGeneral()
    ensures DisjointFields(GENERAL_ENTRIES, LEVERAGE_AND_LIQUIDITY_ENTRIES)
  {
  }

  lemma LeverageAndLiquidityApartFromAssetsAndLiabilities()
    ensures DisjointFields(ASSET_AND_LIABILITY_ENTRIES, LEVERAGE_AND_LIQUIDITY_ENTRIES)
  {
  }

  lemma LeverageAndLiquidityApartFromEquityAndDebt()
    ensures DisjointFields(EQUITY_AND_DEBT_ENTRIES, LEVERAGE_AND_LIQUIDITY_ENTRIES)
  {
  }

  lemma LeverageAndLiquidityApartFromIncome()
    ensures DisjointFields(INCOME_ENTRIES, LEVERAGE_AND_LIQUIDITY_ENTRIES)
  {
  }

  lemma LeverageAndLiquidityApartFromProfitability()
    ensures DisjointFields(PROFITABILITY_ENTRIES, LEVERAGE_AND_LIQUIDITY_ENTRIES)
  {
  }

  lemma PerShareAndValuationApartFromGeneral()
    ensures DisjointFields(GENERAL_ENTRIES, PER_SHARE_AND_VALUATION_ENTRIES)
  {
  }

  lemma PerShareAndValuationApartFromAssetsAndLiabilities()
    ensures DisjointFields(ASSET_AND_LIABILITY_ENTRIES, PER_SHARE_AND_VALUATION_ENTRIES)
  {
  }

  lemma PerShareAndValuationApartFromEquityAndDebt()
    ensures DisjointFields(EQUITY_AND_DEBT_ENTRIES, PER_SHARE_AND_VALUATION_ENTRIES)
  {
  }

  lemma PerShareAndValuationApartFromIncome()
    ensures DisjointFields(INCOME_ENTRIES, PER_SHARE_AND_VALUATION_ENTRIES)
  {
  }

  lemma PerShareAndValuationApartFromProfitability()
    ensures DisjointFields(PROFITABILITY_ENTRIES, PER_SHARE_AND_VALUATION_ENTRIES)
  {
  }

  lemma PerShareAndValuationApartFromLeverageAndLiquidity()
    ensures DisjointFields(LEVERAGE_AND_LIQUIDITY_ENTRIES, PER_SHARE_AND_VALUATION_ENTRIES)
  {
  }

  lemma DividendsApartFromGeneral()
    ensures DisjointFields(GENERAL_ENTRIES, DIVIDEND_ENTRIES)
  {
  }

  lemma DividendsApartFromAssetsAndLiabilities()
    ensures DisjointFields(ASSET_AND_LIABILITY_ENTRIES, DIVIDEND_ENTRIES)
  {
  }

  lemma DividendsApartFromEquityAndDebt()
    ensures DisjointFields(EQUITY_AND_DEBT_ENTRIES, DIVIDEND_ENTRIES)
  {
  }

  lemma DividendsApartFromIncome()
    ensures DisjointFields(INCOME_ENTRIES, DIVIDEND_ENTRIES)
  {
  }

  lemma DividendsApartFromProfitability()
    ensures DisjointFields(PROFITABILITY_ENTRIES, DIVIDEND_ENTRIES)
  {
  }

  lemma DividendsApartFromLeverageAndLiquidity()
    ensures DisjointFields(LEVERAGE_AND_LIQUIDITY_ENTRIES, DIVIDEND_ENTRIES)
  {
  }

  lemma DividendsApartFromPerShareAndValuation()
    ensures DisjointFields(PER_SHARE_AND_VALUATION_ENTRIES, DIVIDEND_ENTRIES)
  {
  }

  /** The 86 keys of the dictionary literal are pairwise distinct: no entry of it shadows another. */
  lemma LayoutFieldsDistinct()
    ensures |UPDATE_LAYOUT| == 86
    ensures DistinctFields(UPDATE_LAYOUT)
  {
    var prefix := GENERAL_ENTRIES;
    GeneralDistinct();
    AssetsAndLiabilitiesDistinct();
    AssetsAndLiabilitiesApartFromGeneral();
    DistinctAppend(prefix, ASSET_AND_LIABILITY_ENTRIES);
    prefix := prefix + ASSET_AND_LIABILITY_ENTRIES;
    EquityAndDebtDistinct();
    EquityAndDebtApartFromGeneral();
    EquityAndDebtApartFromAssetsAndLiabilities();
    DisjointAppend(GENERAL_ENTRIES, ASSET_AND_LIABILITY_ENTRIES, EQUITY_AND_DEBT_ENTRIES);
    DistinctAppend(prefix, EQUITY_AND_DEBT_ENTRIES);
    prefix := prefix + EQUITY_AND_DEBT_ENTRIES;
    IncomeDistinct();
    IncomeApartFromGeneral();
    IncomeApartFromAssetsAndLiabilities();
    IncomeApartFromEquityAndDebt();
    DisjointAppend(GENERAL_ENTRIES, ASSET_AND_LIABILITY_ENTRIES, INCOME_ENTRIES);
    DisjointAppend(GENERAL_ENTRIES + ASSET_AND_LIABILITY_ENTRIES, EQUITY_AND_DEBT_ENTRIES, INCOME_ENTRIES);
    DistinctAppend(prefix, INCOME_ENTRIES);
    prefix := prefix + INCOME_ENTRIES;
    ProfitabilityDistinct();
    ProfitabilityApartFromGeneral();
    ProfitabilityApartFromAssetsAndLiabilities();
    ProfitabilityApartFromEquityAndDebt();
    ProfitabilityApartFromIncome();
    DisjointAppend(GENERAL_ENTRIES, ASSET_AND_LIABILITY_ENTRIES, PROFITABILITY_ENTRIES);
    DisjointAppend(GENERAL_ENTRIES + ASSET_AND_LIABILITY_ENTRIES, EQUITY_AND_DEBT_ENTRIES, PROFITABILITY_ENTRIES);
    DisjointAppend(GENERAL_ENTRIES + ASSET_AND_LIABILITY_ENTRIES + EQUITY_AND_DEBT_ENTRIES, INCOME_ENTRIES, PROFITABILITY_ENTRIES);
    DistinctAppend(prefix, PROFITABILITY_ENTRIES);
    prefix := prefix + PROFITABILITY_ENTRIES;
    LeverageAndLiquidityDistinct();
    LeverageAndLiquidityApartFromGeneral();
    LeverageAndLiquidityApartFromAssetsAndLiabilities();
    LeverageAndLiquidityApartFromEquityAndDebt();
    LeverageAndLiquidityApartFromIncome();
    LeverageAndLiquidityApartFromProfitability();
    DisjointAppend(GENERAL_ENTRIES, ASSET_AND_LIABILITY_ENTRIES, LEVERAGE_AND_LIQUIDITY_ENTRIES);
    DisjointAppend(GENERAL_ENTRIES + ASSET_AND_LIABILITY_ENTRIES, EQUITY_AND_DEBT_ENTRIES, LEVERAGE_AND_LIQUIDITY_ENTRIES);
    DisjointAppend(GENERAL_ENTRIES + ASSET_AND_LIABILITY_ENTRIES + EQUITY_AND_DEBT_ENTRIES, INCOME_ENTRIES, LEVERAGE_AND_LIQUIDITY_ENTRIES);
    DisjointAppend(GENERAL_ENTRIES + ASSET_AND_LIABILITY_ENTRIES + EQUITY_AND_DEBT_ENTRIES + INCOME_ENTRIES, PROFITABILITY_ENTRIES, LEVERAGE_AND_LIQUIDITY_ENTRIES);
    DistinctAppend(prefix, LEVERAGE_AND_LIQUIDITY_ENTRIES);
    prefix := prefix + LEVERAGE_AND_LIQUIDITY_ENTRIES;
    PerShareAndValuationDistinct();
    PerShareAndValuationApartFromGeneral();
    PerShareAndValuationApartFromAssetsAndLiabilities();
    PerShareAndValuationApartFromEquityAndDebt();
    PerShareAndValuationApartFromIncome();
    PerShareAndValuationApartFromProfitability();
    PerShareAndValuationApartFromLeverageAndLiquidity();
    DisjointAppend(GENERAL_ENTRIES, ASSET_AND_LIABILITY_ENTRIES, PER_SHARE_AND_VALUATION_ENTRIES);
    DisjointAppend(GENERAL_ENTRIES + ASSET_AND_LIABILITY_ENTRIES, EQUITY_AND_DEBT_ENTRIES, PER_SHARE_AND_VALUATION_ENTRIES);
    DisjointAppend(GENERAL_ENTRIES + ASSET_AND_LIABILITY_ENTRIES + EQUITY_AND_DEBT_ENTRIES, INCOME_ENTRIES, PER_SHARE_AND_VALUATION_ENTRIES);
    DisjointAppend(GENERAL_ENTRIES + ASSET_AND_LIABILITY_ENTRIES + EQUITY_AND_DEBT_ENTRIES + INCOME_ENTRIES, PROFITABILITY_ENTRIES, PER_SHARE_AND_VALUATION_ENTRIES);
    DisjointAppend(GENERAL_ENTRIES + ASSET_AND_LIABILITY_ENTRIES + EQUITY_AND_DEBT_ENTRIES + INCOME_ENTRIES + PROFITABILITY_ENTRIES, LEVERAGE_AND_LIQUIDITY_ENTRIES, PER_SHARE_AND_VALUATION_ENTRIES);
    DistinctAppend(prefix, PER_SHARE_AND_VALUATION_ENTRIES);
    prefix := prefix + PER_SHARE_AND_VALUATION_ENTRIES;
    DividendsDistinct();
    DividendsApartFromGeneral();
    DividendsApartFromAssetsAndLiabilities();
    DividendsApartFromEquityAndDebt();
    DividendsApartFromIncome();
    DividendsApartFromProfitability();
    DividendsApartFromLeverageAndLiquidity();
    DividendsApartFromPerShareAndValuation();
    DisjointAppend(GENERAL_ENTRIES, ASSET_AND_LIABILITY_ENTRIES, DIVIDEND_ENTRIES);
    DisjointAppend(GENERAL_ENTRIES + ASSET_AND_LIABILITY_ENTRIES, EQUITY_AND_DEBT_ENTRIES, DIVIDEND_ENTRIES);
    DisjointAppend(GENERAL_ENTRIES + ASSET_AND_LIABILITY_ENTRIES + EQUITY_AND_DEBT_ENTRIES, INCOME_ENTRIES, DIVIDEND_ENTRIES);
    DisjointAppend(GENERAL_ENTRIES + ASSET_AND_LIABILITY_ENTRIES + EQUITY_AND_DEBT_ENTRIES + INCOME_ENTRIES, PROFITABILITY_ENTRIES, DIVIDEND_ENTRIES);
    DisjointAppend(GENERAL_ENTRIES + ASSET_AND_LIABILITY_ENTRIES + EQUITY_AND_DEBT_ENTRIES + INCOME_ENTRIES + PROFITABILITY_ENTRIES, LEVERAGE_AND_LIQUIDITY_ENTRIES, DIVIDEND_ENTRIES);
    DisjointAppend(GENERAL_ENTRIES + ASSET_AND_LIABILITY_ENTRIES + EQUITY_AND_DEBT_ENTRIES + INCOME_ENTRIES + PROFITABILITY_ENTRIES + LEVERAGE_AND_LIQUIDITY_ENTRIES, PER_SHARE_AND_VALUATION_ENTRIES, DIVIDEND_ENTRIES);
    DistinctAppend(prefix, DIVIDEND_ENTRIES);
  }

  lemma PathInjective(a: Entry, b: Entry)
    ensures Path(a) == Path(b) ==> a.field == b.field
  {
    if Path(a) == Path(b) {
      assert Path(a)[|PATH_PREFIX|..] == a.field;
      assert Path(b)[|PATH_PREFIX|..] == b.field;
    }
  }

  /** The value of an entry, or the failure of evaluating it (a `TypeError` or `KeyError` that escapes). */
  datatype Eval = Ok(value: Json) | Fails

  /**
   * `safe_get_first_value`: the first item of a truthy value with a length, `None` for a falsy one.
   * A truthy number or boolean has no length, and a non-empty object has no key `0`: both raise.
   */
  function SafeGetFirstValue(x: Json): (r: Eval)
    ensures !Truthy(x) ==> r == Ok(Null)
    ensures r.Fails? <==> Truthy(x) && (x.Num? || x.Bool? || x.Obj?)
    ensures Truthy(x) && x.Arr? ==> r == Ok(x.items[0])
    ensures Truthy(x) && x.Str? ==> r == Ok(Str([x.s[0]]))
  {
    match x
    case Arr(items) => if items == [] then Ok(Null) else Ok(items[0])
    case Str(s) => if s == [] then Ok(Null) else Ok(Str([s[0]]))
    case Null => Ok(Null)
    case Num(n) => if n == 0 then Ok(Null) else Fails
    case Bool(b) => if b then Fails else Ok(Null)
    case Obj(fields) => if fields == map[] then Ok(Null) else Fails
  }

  /** The value the dictionary literal computes for one entry; a missing key reads as `None`. */
  function Evaluate(fd: map<string, Json>, e: Entry): Eval {
    var raw := GetOr(fd, e.source, Null);
    match e.pick
    case Whole => Ok(raw)
    case First => SafeGetFirstValue(raw)
  }

  /** The dictionary literal: entries evaluated in order, a later entry with the same path replacing an earlier one. */
  function RawDoc(fd: map<string, Json>, entries: seq<Entry>): Option<map<string, Json>>
    decreases |entries|
  {
    if entries == [] then Some(map[])
    else
      var last := entries[|entries| - 1];
      match RawDoc(fd, entries[..|entries| - 1])
      case None => None
      case Some(doc) =>
        match Evaluate(fd, last)
        case Fails => None
        case Ok(v) => Some(doc[Path(last) := v])
  }

  /** Building the document raises exactly when some entry fails to evaluate. */
  lemma {:induction false} RawDocFailsIff(fd: map<string, Json>, entries: seq<Entry>)
    ensures RawDoc(fd, entries).None? <==> exists i :: 0 <= i < |entries| && Evaluate(fd, entries[i]).Fails?
    decreases |entries|
  {
    if entries != [] {
      var init := entries[..|entries| - 1];
      RawDocFailsIff(fd, init);
      if exists i :: 0 <= i < |init| && Evaluate(fd, init[i]).Fails? {
        var i :| 0 <= i < |init| && Evaluate(fd, init[i]).Fails?;
        assert entries[i] == init[i];
      }
      if RawDoc(fd, init).Some? && Evaluate(fd, entries[|entries| - 1]).Ok? {
        forall i | 0 <= i < |entries| ensures Evaluate(fd, entries[i]).Ok? {
          if i < |init| {
            assert entries[i] == init[i];
          }
        }
      }
    }
  }

  /** A built document has exactly the paths of the entries as keys. */
  lemma {:induction false} RawDocKeys(fd: map<string, Json>, entries: seq<Entry>)
    requires RawDoc(fd, entries).Some?
    ensures RawDoc(fd, entries).value.Keys == set i | 0 <= i < |entries| :: Path(entries[i])
    decreases |entries|
  {
    if entries != [] {
      var init := entries[..|entries| - 1];
      RawDocKeys(fd, init);
      var before := set i | 0 <= i < |init| :: Path(init[i]);
      var after := set i | 0 <= i < |entries| :: Path(entries[i]);
      forall p | p in after ensures p in before || p == Path(entries[|entries| - 1]) {
        var i :| 0 <= i < |entries| && p == Path(entries[i]);
        if i < |init| {
          assert init[i] == entries[i];
        }
      }
      forall p | p in before ensures p in after {
        var i :| 0 <= i < |init| && p == Path(init[i]);
        assert init[i] == entries[i];
      }
    }
  }

  /** With distinct fields, each entry's path holds that entry's value. */
  lemma {:induction false} RawDocValue(fd: map<string, Json>, entries: seq<Entry>, i: nat)
    requires RawDoc(fd, entries).Some? && i < |entries| && DistinctFields(entries)
    ensures Evaluate(fd, entries[i]).Ok?
    ensures Path(entries[i]) in RawDoc(fd, entries).value
    ensures RawDoc(fd, entries).value[Path(entries[i])] == Evaluate(fd, entries[i]).value
    decreases |entries|
  {
    var last := |entries| - 1;
    var init := entries[..last];
    if i < last {
      assert DistinctFields(init);
      RawDocValue(fd, init, i);
      PathInjective(entries[last], entries[i]);
    }
  }

  /** A value of the `$set` document: a decoded value, or the `datetime.utcnow()` stamp. */
  datatype DocValue = Val(json: Json) | Time(utc: int)

  /** `{k: v for k, v in update_doc.items() if v is not None}`. */
  function RemoveNone(doc: map<string, Json>): (r: map<string, DocValue>)
    ensures r.Keys == set k | k in doc && doc[k] != Null
    ensures forall k :: k in r ==> r[k] == Val(doc[k])
  {
    map k | k in doc && doc[k] != Null :: Val(doc[k])
  }

  /** The `$set` document for a snapshot, stamped `now`; `None` when building it raises. */
  function UpdateDoc(fd: map<string, Json>, now: int): Option<map<string, DocValue>> {
    match RawDoc(fd, UPDATE_LAYOUT)
    case None => None
    case Some(doc) => Some(RemoveNone(doc)[LAST_UPDATED := Time(now)])
  }

  lemma PathIsNotLastUpdated(e: Entry)
    ensures Path(e) != LAST_UPDATED
  {
    assert Path(e)[0] == 't';
  }

  /**
   * The document always carries `lastUpdated`, so it is never empty; it holds no `None`; every
   * other key is the path of an entry of the layout.
   */
  lemma UpdateDocShape(fd: map<string, Json>, now: int)
    requires UpdateDoc(fd, now).Some?
    ensures var doc := UpdateDoc(fd, now).value;
      && LAST_UPDATED in doc && doc[LAST_UPDATED] == Time(now)
      && (forall k :: k in doc ==> doc[k] != Val(Null))
      && (forall k :: k in doc && k != LAST_UPDATED ==> exists i :: 0 <= i < |UPDATE_LAYOUT| && k == Path(UPDATE_LAYOUT[i]))
  {
    RawDocKeys(fd, UPDATE_LAYOUT);
  }

  /** Building the document raises exactly when a "latest" entry meets a truthy number, boolean or object. */
  lemma UpdateDocRaisesIff(fd: map<string, Json>, now: int)
    ensures UpdateDoc(fd, now).None? <==>
      exists i :: 0 <= i < |UPDATE_LAYOUT| && UPDATE_LAYOUT[i].pick == First &&
        SafeGetFirstValue(GetOr(fd, UPDATE_LAYOUT[i].source, Null)).Fails?
  {
    RawDocFailsIff(fd, UPDATE_LAYOUT);
  }

  /** An entry's path is set exactly when its value is not `None`, and then to that value. */
  lemma EntryInDoc(fd: map<string, Json>, now: int, i: nat)
    requires UpdateDoc(fd, now).Some? && i < |UPDATE_LAYOUT|
    ensures Evaluate(fd, UPDATE_LAYOUT[i]).Ok?
    ensures var doc, v := UpdateDoc(fd, now).value, Evaluate(fd, UPDATE_LAYOUT[i]).value;
      && (Path(UPDATE_LAYOUT[i]) in doc <==> v != Null)
      && (v != Null ==> doc[Path(UPDATE_LAYOUT[i])] == Val(v))
  {
    LayoutFieldsDistinct();
    RawDocValue(fd, UPDATE_LAYOUT, i);
    PathIsNotLastUpdated(UPDATE_LAYOUT[i]);
  }

  /** A source key missing from the snapshot produces no entry. */
  lemma MissingSourceNoEntry(fd: map<string, Json>, now: int, i: nat)
    requires UpdateDoc(fd, now).Some? && i < |UPDATE_LAYOUT| && UPDATE_LAYOUT[i].source !in fd
    ensures Path(UPDATE_LAYOUT[i]) !in UpdateDoc(fd, now).value
  {
    EntryInDoc(fd, now, i);
  }

  /**
   * A "latest" entry and a history entry reading the same source: the latest path holds the first
   * item of the list the history path holds, and is absent when the snapshot key is missing, `None` or empty.
   */
  lemma LatestIsFirstOfHistory(fd: map<string, Json>, now: int, i: nat, j: nat)
    requires UpdateDoc(fd, now).Some? && i < |UPDATE_LAYOUT| && j < |UPDATE_LAYOUT|
    requires UPDATE_LAYOUT[i].pick == First && UPDATE_LAYOUT[j].pick == Whole
    requires UPDATE_LAYOUT[i].source == UPDATE_LAYOUT[j].source
    ensures var doc, src := UpdateDoc(fd, now).value, UPDATE_LAYOUT[i].source;
      && (src in fd && fd[src].Arr? && fd[src].items != [] && fd[src].items[0] != Null ==>
            Path(UPDATE_LAYOUT[i]) in doc && doc[Path(UPDATE_LAYOUT[i])] == Val(fd[src].items[0]) &&
            Path(UPDATE_LAYOUT[j]) in doc && doc[Path(UPDATE_LAYOUT[j])] == Val(fd[src]))
      && (src !in fd || fd[src] == Null ==> Path(UPDATE_LAYOUT[i]) !in doc && Path(UPDATE_LAYOUT[j]) !in doc)
      && (src in fd && fd[src] == Arr([]) ==>
            Path(UPDATE_LAYOUT[i]) !in doc && Path(UPDATE_LAYOUT[j]) in doc && doc[Path(UPDATE_LAYOUT[j])] == Val(Arr([])))
  {
    EntryInDoc(fd, now, i);
    EntryInDoc(fd, now, j);
  }

  /** `tradingViewData.totalAssets` and `tradingViewData.totalAssetsHistoryYearly` both read `total_assets_fy_h`. */
  lemma TotalAssetsPairing(fd: map<string, Json>, now: int)
    requires UpdateDoc(fd, now).Some?
    requires "total_assets_fy_h" in fd && fd["total_assets_fy_h"].Arr? && fd["total_assets_fy_h"].items != []
    requires fd["total_assets_fy_h"].items[0] != Null
    ensures var doc := UpdateDoc(fd, now).value;
      && "tradingViewData.totalAssets" in doc
      && doc["tradingViewData.totalAssets"] == Val(fd["total_assets_fy_h"].items[0])
      && "tradingViewData.totalAssetsHistoryYearly" in doc
      && doc["tradingViewData.totalAssetsHistoryYearly"] == Val(fd["total_assets_fy_h"])
  {
    AssetsEntries();
    LatestIsFirstOfHistory(fd, now, 7, 8);
  }

  lemma AssetsEntries()
    ensures UPDATE_LAYOUT[7] == Entry("totalAssets", "total_assets_fy_h", First)
    ensures UPDATE_LAYOUT[8] == Entry("totalAssetsHistoryYearly", "total_assets_fy_h", Whole)
    ensures Path(UPDATE_LAYOUT[7]) == "tradingViewData.totalAssets"
    ensures Path(UPDATE_LAYOUT[8]) == "tradingViewData.totalAssetsHistoryYearly"
  {
    assert UPDATE_LAYOUT[7] == ASSET_AND_LIABILITY_ENTRIES[0];
    assert UPDATE_LAYOUT[8] == ASSET_AND_LIABILITY_ENTRIES[1];
  }

  /**
   * Entries reading a key the fetcher's snapshot never has are never set from a snapshot, whatever
   * the fetch received.
   */
  lemma ForeignSourceNeverSet(fd: map<string, Json>, now: int, i: nat)
    requires UpdateDoc(fd, now).Some? && i < |UPDATE_LAYOUT|
    requires fd.Keys <= Snapshot.KEY_SET && UPDATE_LAYOUT[i].source !in Snapshot.KEY_SET
    ensures Path(UPDATE_LAYOUT[i]) !in UpdateDoc(fd, now).value
  {
    MissingSourceNoEntry(fd, now, i);
  }

  /** `total_revenue_fy_h` is such a key: `tradingViewData.totalRevenue` is never set from a snapshot. */
  lemma TotalRevenueNeverSet(fd: map<string, Json>, now: int)
    requires UpdateDoc(fd, now).Some? && fd.Keys <= Snapshot.KEY_SET
    ensures "tradingViewData.totalRevenue" !in UpdateDoc(fd, now).value
  {
    RevenueEntry();
    RevenueKeyNotFetched();
    ForeignSourceNeverSet(fd, now, 31);
  }

  lemma RevenueEntry()
    ensures UPDATE_LAYOUT[31] == Entry("totalRevenue", "total_revenue_fy_h", First)
    ensures Path(UPDATE_LAYOUT[31]) == "tradingViewData.totalRevenue"
  {
    var front := GENERAL_ENTRIES + ASSET_AND_LIABILITY_ENTRIES + EQUITY_AND_DEBT_ENTRIES;
    assert |front| == 31;
    assert (front + INCOME_ENTRIES)[31] == INCOME_ENTRIES[0];
  }

  lemma RevenueKeyNotFetched()
    ensures "total_revenue_fy_h" !in Snapshot.KEY_SET
  {
  }

  /**
   * The answer of `update_one`: an acknowledged write with its `modified_count`, a `PyMongoError`
   * (caught), or another exception raised while sending the document, such as the `OverflowError`
   * of an integer beyond 64 bits (not caught, so it escapes).
   */
  datatype StoreReply = Acknowledged(modifiedCount: nat) | StoreError | EncodeError

  /** The `update_one` call: filter on `basicInfo.symbol`, `$set` document, `upsert`. */
  datatype UpdateCall = UpdateCall(basicInfoSymbol: string, setDoc: map<string, DocValue>, upsert: bool)

  /** How `update_company_financials` ends: with a boolean, or with an exception that escapes it. */
  datatype Outcome = Returned(ok: bool) | Raised

  datatype UpdateResult = UpdateResult(call: Option<UpdateCall>, outcome: Outcome)

  /**
   * `update_company_financials(symbol, financial_data)`; `None` or an empty dictionary is rejected
   * before any document is built.
   */
  function UpdateCompanyFinancials(symbol: string, financialData: Option<map<string, Json>>, now: int, reply: StoreReply): (r: UpdateResult)
    ensures financialData.None? || financialData.value == map[] ==> r == UpdateResult(None, Returned(false))
    ensures r.call.Some? <==>
      financialData.Some? && financialData.value != map[] && UpdateDoc(financialData.value, now).Some?
    ensures r.outcome == Returned(true) <==>
      financialData.Some? && financialData.value != map[] && UpdateDoc(financialData.value, now).Some? &&
      reply.Acknowledged? && reply.modifiedCount > 0
    ensures r.outcome.Raised? <==>
      financialData.Some? && financialData.value != map[] &&
      (UpdateDoc(financialData.value, now).None? || reply.EncodeError?)
    ensures r.call.Some? ==>
      financialData.Some? && UpdateDoc(financialData.value, now).Some? &&
      r.call.value.basicInfoSymbol == symbol && !r.call.value.upsert &&
      r.call.value.setDoc == UpdateDoc(financialData.value, now).value && LAST_UPDATED in r.call.value.setDoc
  {
    if financialData.None? || financialData.value == map[] then UpdateResult(None, Returned(false))
    else
      match UpdateDoc(financialData.value, now)
      case None => UpdateResult(None, Raised)
      case Some(doc) =>
        var call := UpdateCall(symbol, doc, false);
        match reply
        case StoreError => UpdateResult(Some(call), Returned(false))
        case EncodeError => UpdateResult(Some(call), Raised)
        case Acknowledged(n) => UpdateResult(Some(call), Returned(n > 0))
  }

  const QUERY_MARKER := "/?"
  const DATABASE_NAME := "cse-data"

  /** No `/` directly followed by `?`: `"/?" not in s`. */
  predicate NoQueryMarker(s: string) {
    forall i :: 0 <= i < |s| - 1 ==> !(s[i] == '/' && s[i + 1] == '?')
  }

  lemma NoQueryMarkerIff(s: string)
    ensures NoQueryMarker(s) <==> !IsSubstring(QUERY_MARKER, s)
  {
    if !NoQueryMarker(s) {
      var i :| 0 <= i < |s| - 1 && s[i] == '/' && s[i + 1] == '?';
      assert OccursAt(QUERY_MARKER, s, i);
    }
    if IsSubstring(QUERY_MARKER, s) {
      var i :| 0 <= i <= |s| - 2 && OccursAt(QUERY_MARKER, s, i);
      assert s[i] == s[i..i + 2][0] && s[i + 1] == s[i..i + 2][1];
    }
  }

  /** `s.replace("/?", "/cse-data?")`: every occurrence, scanning left to right without overlap. */
  function ReplaceQueryMarker(s: string): (r: string)
    ensures |s| > 0 ==> |r| > 0 && r[0] == s[0]
    decreases |s|
  {
    if |s| < 2 then s
    else if s[0] == '/' && s[1] == '?' then "/" + DATABASE_NAME + "?" + ReplaceQueryMarker(s[2..])
    else [s[0]] + ReplaceQueryMarker(s[1..])
  }

  /** After the rewrite no `/?` is left. */
  lemma {:induction false} ReplaceLeavesNoMarker(s: string)
    ensures NoQueryMarker(ReplaceQueryMarker(s))
    decreases |s|
  {
    if |s| >= 2 {
      var r := ReplaceQueryMarker(s);
      if s[0] == '/' && s[1] == '?' {
        var rest := ReplaceQueryMarker(s[2..]);
        ReplaceLeavesNoMarker(s[2..]);
        var head := "/" + DATABASE_NAME + "?";
        assert r == head + rest;
        forall i | 0 <= i < |r| - 1 ensures !(r[i] == '/' && r[i + 1] == '?') {
          if i >= |head| {
            assert r[i] == rest[i - |head|] && r[i + 1] == rest[i + 1 - |head|];
          }
        }
      } else {
        var rest := ReplaceQueryMarker(s[1..]);
        ReplaceLeavesNoMarker(s[1..]);
        assert r == [s[0]] + rest;
        forall i | 0 <= i < |r| - 1 ensures !(r[i] == '/' && r[i + 1] == '?') {
          if i >= 1 {
            assert r[i] == rest[i - 1] && r[i + 1] == rest[i];
          } else {
            assert r[1] == rest[0] == s[1];
          }
        }
      }
    }
  }

  /** A string without `/?` is left as it is. */
  lemma {:induction false} ReplaceIdentityWithoutMarker(s: string)
    requires NoQueryMarker(s)
    ensures ReplaceQueryMarker(s) == s
    decreases |s|
  {
    if |s| >= 2 {
      assert NoQueryMarker(s[1..]) by {
        forall i | 0 <= i < |s[1..]| - 1 ensures !(s[1..][i] == '/' && s[1..][i + 1] == '?') {
          assert s[1..][i] == s[i + 1] && s[1..][i + 1] == s[i + 2];
        }
      }
      ReplaceIdentityWithoutMarker(s[1..]);
      assert s == [s[0]] + s[1..];
    }
  }

  /** Where there was a `/?`, the rewrite names the database: `/cse-data?` appears. */
  lemma {:induction false} ReplaceNamesDatabase(s: string)
    requires !NoQueryMarker(s)
    ensures IsSubstring("/" + DATABASE_NAME + "?", ReplaceQueryMarker(s))
    decreases |s|
  {
    var head := "/" + DATABASE_NAME + "?";
    var r := ReplaceQueryMarker(s);
    if s[0] == '/' && s[1] == '?' {
      assert r[..|head|] == head;
      assert OccursAt(head, r, 0);
    } else {
      MarkerInTail(s);
      ReplaceNamesDatabase(s[1..]);
      var rest := ReplaceQueryMarker(s[1..]);
      var k :| 0 <= k <= |rest| - |head| && OccursAt(head, rest, k);
      assert r == [s[0]] + rest;
      assert OccursAt(rest, r, 1);
      OccursWithin(head, rest, r, 1, k);
    }
  }

  lemma MarkerInTail(s: string)
    requires !NoQueryMarker(s) && !(s[0] == '/' && s[1] == '?')
    ensures !NoQueryMarker(s[1..])
  {
    var i :| 0 <= i < |s| - 1 && s[i] == '/' && s[i + 1] == '?';
    assert s[1..][i - 1] == s[i] && s[1..][i] == s[i + 1];
  }

  /**
   * The rewrite works left to right: text before the first `/?` is kept, that `/?` becomes
   * `/cse-data?`, and the rest is rewritten in turn. With `ReplaceIdentityWithoutMarker` this fixes
   * the result on every input.
   */
  lemma ReplaceFirstMarker(a: string, b: string)
    requires NoQueryMarker(a)
    ensures ReplaceQueryMarker(a + QUERY_MARKER + b) == a + "/" + DATABASE_NAME + "?" + ReplaceQueryMarker(b)
  {
    RewriteAfterPrefix(a, b, a + QUERY_MARKER + b);
  }

  /** `ReplaceFirstMarker` with the joined string `s` named, by induction on the prefix `a`. */
  lemma {:induction false} RewriteAfterPrefix(a: string, b: string, s: string)
    requires NoQueryMarker(a) && s == a + QUERY_MARKER + b
    ensures ReplaceQueryMarker(s) == a + "/" + DATABASE_NAME + "?" + ReplaceQueryMarker(b)
    decreases |a|
  {
    if a == [] {
      assert s[..2] == QUERY_MARKER && s[2..] == b;
    } else {
      var t := a[1..] + QUERY_MARKER + b;
      CopiesFirstChar(a, b, s, t);
      NoMarkerInTail(a);
      RewriteAfterPrefix(a[1..], b, t);
      assert a == [a[0]] + a[1..];
    }
  }

  /** The first character of a marker-free prefix does not start `/?`, so it is copied. */
  lemma CopiesFirstChar(a: string, b: string, s: string, t: string)
    requires NoQueryMarker(a) && a != [] && s == a + QUERY_MARKER + b && t == a[1..] + QUERY_MARKER + b
    ensures ReplaceQueryMarker(s) == [a[0]] + ReplaceQueryMarker(t)
  {
    assert s[0] == a[0];
    if |a| >= 2 {
      assert s[1] == a[1];
    } else {
      assert s[1] == '/';
    }
    assert s[1..] == t;
  }

  lemma NoMarkerInTail(s: string)
    requires NoQueryMarker(s) && s != []
    ensures NoQueryMarker(s[1..])
  {
    forall i | 0 <= i < |s[1..]| - 1 ensures !(s[1..][i] == '/' && s[1..][i + 1] == '?') {
      assert s[1..][i] == s[i + 1] && s[1..][i + 1] == s[i + 2];
    }
  }

  /**
   * The connection string `__init__` settles on: `None` when `MONGODB_URI` is missing or empty (the
   * `ValueError`), the marker rewrite when it holds `/?`, `cse-data` appended otherwise.
   */
  function ConnectionUri(configured: Option<string>): (r: Option<string>)
    ensures r.None? <==> configured.None? || configured.value == ""
    ensures r.Some? ==> NoQueryMarker(r.value)
    ensures configured.Some? && configured.value != "" && !IsSubstring(QUERY_MARKER, configured.value) ==>
      r == Some(configured.value + DATABASE_NAME)
    ensures configured.Some? && IsSubstring(QUERY_MARKER, configured.value) ==>
      r == Some(ReplaceQueryMarker(configured.value))
  {
    if configured.None? || configured.value == "" then None
    else
      var uri := configured.value;
      NoQueryMarkerIff(uri);
      if IsSubstring(QUERY_MARKER, uri) then
        ReplaceLeavesNoMarker(uri);
        Some(ReplaceQueryMarker(uri))
      else
        AppendKeepsNoMarker(uri, DATABASE_NAME);
        Some(uri + DATABASE_NAME)
  }

  lemma AppendKeepsNoMarker(s: string, t: string)
    requires NoQueryMarker(s) && NoQueryMarker(t) && (t != [] ==> t[0] != '?')
    ensures NoQueryMarker(s + t)
  {
    forall i | 0 <= i < |s + t| - 1 ensures !((s + t)[i] == '/' && (s + t)[i + 1] == '?') {
      if i + 1 < |s| {
        assert (s + t)[i] == s[i] && (s + t)[i + 1] == s[i + 1];
      } else if i >= |s| {
        assert (s + t)[i] == t[i - |s|] && (s + t)[i + 1] == t[i + 1 - |s|];
      } else {
        assert (s + t)[i + 1] == t[0];
      }
    }
  }

  /** The rewritten connection string always names the `cse-data` database. */
  lemma ConnectionUriNamesDatabase(configured: Option<string>)
    requires ConnectionUri(configured).Some?
    ensures IsSubstring(DATABASE_NAME, ConnectionUri(configured).value)
  {
    var uri := configured.value;
    var r := ConnectionUri(configured).value;
    NoQueryMarkerIff(uri);
    if IsSubstring(QUERY_MARKER, uri) {
      ReplaceNamesDatabase(uri);
      var head := "/" + DATABASE_NAME + "?";
      var k :| 0 <= k <= |r| - |head| && OccursAt(head, r, k);
      assert OccursAt(DATABASE_NAME, head, 1);
      OccursWithin(DATABASE_NAME, head, r, k, 1);
    } else {
      assert r[|uri|..] == DATABASE_NAME;
      assert OccursAt(DATABASE_NAME, r, |uri|);
    }
  }

  /** The handler object; its connection fields (`client`, `db`, `collection`) belong to the store and are not modelled. */
  class MongoDBHandler {
    var uri: string

    /** `__init__` once `MONGODB_URI` is known to be set and non-empty: rewrite `self.uri` in place. */
    constructor (configured: string)
      requires configured != ""
      ensures Some(uri) == ConnectionUri(Some(configured))
    {
      uri := configured;
      new;
      if IsSubstring(QUERY_MARKER, uri) {
        uri := ReplaceQueryMarker(uri);
      } else {
        uri := uri + DATABASE_NAME;
      }
    }
  }

  /** `MongoDBHandler()`: `None` stands for the `ValueError` raised when `MONGODB_URI` is missing or empty. */
  method OpenHandler(configured: Option<string>) returns (handler: Option<MongoDBHandler>)
    ensures handler.None? <==> configured.None? || configured.value == ""
    ensures handler.Some? ==> Some(handler.value.uri) == ConnectionUri(configured)
  {
    if configured.None? || configured.value == "" {
      return None;
    }
    var h := new MongoDBHandler(configured.value);
    return Some(h);
  }
}
