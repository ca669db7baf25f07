/** Static configuration of the EDGAR extraction: the synonym groups of
    us-gaap taxonomy tags, the ordered list of groups that make up the
    financial statements, the column rename table and the year range
    (source/configuration.py). */
module Configuration {
  import opened Wrappers

  /** The us-gaap taxonomy tags named in the synonym groups, the canonical
      tag of every group first and then the alternates. A tag is identified by
      a number; each constant below is named exactly as the tag it stands
      for. */
  newtype Tag = n: int | 0 <= n < 72 {
    static const Revenues: Tag := 0
    static const CostOfRevenue: Tag := 1
    static const GrossProfit: Tag := 2
    static const ResearchAndDevelopmentExpense: Tag := 3
    static const OperatingExpenses: Tag := 4
    static const OperatingIncomeLoss: Tag := 5
    static const InterestIncomeExpenseNonoperatingNet: Tag := 6
    static const InterestExpense: Tag := 7
    static const InvestmentIncomeInterest: Tag := 8
    static const IncomeLossFromContinuingOperationsBeforeIncomeTaxesExtraordinaryItemsNoncontrollingInterest: Tag := 9
    static const IncomeTaxExpenseBenefit: Tag := 10
    static const NetIncomeLoss: Tag := 11
    static const EarningsPerShareDiluted: Tag := 12
    static const WeightedAverageNumberOfDilutedSharesOutstanding: Tag := 13
    static const CashAndCashEquivalentsAtCarryingValue: Tag := 14
    static const InventoryNet: Tag := 15
    static const AssetsCurrent: Tag := 16
    static const PropertyPlantAndEquipmentNet: Tag := 17
    static const Goodwill: Tag := 18
    static const IntangibleAssetsNetExcludingGoodwill: Tag := 19
    static const Assets: Tag := 20
    static const DebtCurrent: Tag := 21
    static const LiabilitiesCurrent: Tag := 22
    static const LongTermDebtNoncurrent: Tag := 23
    static const Liabilities: Tag := 24
    static const RetainedEarningsAccumulatedDeficit: Tag := 25
    static const StockholdersEquity: Tag := 26
    static const AmortizationOfIntangibleAssets: Tag := 27
    static const Depreciation: Tag := 28
    static const DepreciationDepletionAndAmortization: Tag := 29
    static const NetCashProvidedByUsedInOperatingActivities: Tag := 30
    static const PaymentsToAcquirePropertyPlantAndEquipment: Tag := 31
    static const NetCashProvidedByUsedInInvestingActivities: Tag := 32
    static const NetCashProvidedByUsedInFinancingActivities: Tag := 33
    static const SalesRevenueNet: Tag := 34
    static const SalesRevenueServicesNet: Tag := 35
    static const RevenuesNetOfInterestExpense: Tag := 36
    static const RealEstateRevenueNet: Tag := 37
    static const RevenueFromContractWithCustomerIncludingAssessedTax: Tag := 38
    static const RevenueFromContractWithCustomerExcludingAssessedTax: Tag := 39
    static const SalesRevenueGoodsNet: Tag := 40
    static const RevenuesExcludingInterestAndDividends: Tag := 41
    static const RegulatedAndUnregulatedOperatingRevenue: Tag := 42
    static const CostOfGoodsAndServicesSold: Tag := 43
    static const CostOfGoodsSold: Tag := 44
    static const CostOfServices: Tag := 45
    static const CostOfOtherPropertyOperatingExpense: Tag := 46
    static const ResearchAndDevelopmentExpenseExcludingAcquiredInProcessCost: Tag := 47
    static const CostsAndExpenses: Tag := 48
    static const OperatingCostsAndExpenses: Tag := 49
    static const OperatingExpensesCogs: Tag := 50
    static const BenefitsLossesAndExpenses: Tag := 51
    static const InterestExpenseOperating: Tag := 52
    static const InterestIncomeOther: Tag := 53
    static const IncomeLossFromContinuingOperationsBeforeIncomeTaxesMinorityInterestAndIncomeLossFromEquityMethodInvestments: Tag := 54
    static const NetIncomeLossAvailableToCommonStockholdersBasic: Tag := 55
    static const ProfitLoss: Tag := 56
    static const InvestmentsAndCash: Tag := 57
    static const PropertyPlantAndEquipmentAndFinanceLeaseRightOfUseAssetAfterAccumulatedDepreciationAndAmortization: Tag := 58
    static const FiniteLivedIntangibleAssetsNet: Tag := 59
    static const LongTermDebtCurrent: Tag := 60
    static const ShortTermBorrowings: Tag := 61
    static const LongTermDebtAndCapitalLeaseObligations: Tag := 62
    static const OtherLongTermDebtNoncurrent: Tag := 63
    static const StockholdersEquityIncludingPortionAttributableToNoncontrollingInterest: Tag := 64
    static const DepreciationAmortizationAndAccretionNet: Tag := 65
    static const NetCashProvidedByUsedInOperatingActivitiesContinuingOperations: Tag := 66
    static const PaymentsToAcquireProductiveAssets: Tag := 67
    static const PaymentsToAcquireOtherPropertyPlantAndEquipment: Tag := 68
    static const PaymentsForCapitalImprovements: Tag := 69
    static const NetCashProvidedByUsedInInvestingActivitiesContinuingOperations: Tag := 70
    static const NetCashProvidedByUsedInFinancingActivitiesContinuingOperations: Tag := 71
  }

  /** The synonym groups, one per module-level list of configuration.py,
      numbered in the order of `financial_statements`. */
  newtype Group = n: int | 0 <= n < 34 {
    static const Revenues: Group := 0
    static const CostOfRevenues: Group := 1
    static const GrossProfit: Group := 2
    static const ResearchDevelopmentExpense: Group := 3
    static const OperatingExpenses: Group := 4
    static const OperatingIncome: Group := 5
    static const InterestExpenseNet: Group := 6
    static const InterestExpense: Group := 7
    static const InterestIncome: Group := 8
    static const IncomeContinuingOperations: Group := 9
    static const TaxesExpense: Group := 10
    static const NetIncome: Group := 11
    static const DilutedEps: Group := 12
    static const DilutedSharesOutstanding: Group := 13
    static const CashAndEquivalents: Group := 14
    static const Inventories: Group := 15
    static const CurrentAssets: Group := 16
    static const PropertyAndEquipment: Group := 17
    static const Goodwill: Group := 18
    static const IntangibleAssets: Group := 19
    static const Assets: Group := 20
    static const ShortTermDebt: Group := 21
    static const CurrentLiabilities: Group := 22
    static const LongTermDebt: Group := 23
    static const Liabilities: Group := 24
    static const RetainedEarnings: Group := 25
    static const Equity: Group := 26
    static const Amortization: Group := 27
    static const Depreciation: Group := 28
    static const DepreciationAndAmortization: Group := 29
    static const OperatingCashFlow: Group := 30
    static const Capex: Group := 31
    static const InvestingCashFlow: Group := 32
    static const FinancingCashFlow: Group := 33
  }

  /** The tags of a group, in the order the configuration lists them. */
  function Synonyms(g: Group): (ts: seq<Tag>)
    ensures |ts| > 0 && ts[0] == Canonical(g)
  {
    [Canonical(g)] + Alternates(g)
  }

  /** The first tag of a group: the key under which the group's values are
      stored and renamed. */
  function Canonical(g: Group): Tag {
    if g == Group.Revenues then Tag.Revenues
    else if g == Group.CostOfRevenues then Tag.CostOfRevenue
    else if g == Group.GrossProfit then Tag.GrossProfit
    else if g == Group.ResearchDevelopmentExpense then Tag.ResearchAndDevelopmentExpense
    else if g == Group.OperatingExpenses then Tag.OperatingExpenses
    else if g == Group.OperatingIncome then Tag.OperatingIncomeLoss
    else if g == Group.InterestExpenseNet then Tag.InterestIncomeExpenseNonoperatingNet
    else if g == Group.InterestExpense then Tag.InterestExpense
    else if g == Group.InterestIncome then Tag.InvestmentIncomeInterest
    else if g == Group.IncomeContinuingOperations then Tag.IncomeLossFromContinuingOperationsBeforeIncomeTaxesExtraordinaryItemsNoncontrollingInterest
    else if g == Group.TaxesExpense then Tag.IncomeTaxExpenseBenefit
    else if g == Group.NetIncome then Tag.NetIncomeLoss
    else if g == Group.DilutedEps then Tag.EarningsPerShareDiluted
    else if g == Group.DilutedSharesOutstanding then Tag.WeightedAverageNumberOfDilutedSharesOutstanding
    else if g == Group.CashAndEquivalents then Tag.CashAndCashEquivalentsAtCarryingValue
    else if g == Group.Inventories then Tag.InventoryNet
    else if g == Group.CurrentAssets then Tag.AssetsCurrent
    else if g == Group.PropertyAndEquipment then Tag.PropertyPlantAndEquipmentNet
    else if g == Group.Goodwill then Tag.Goodwill
    else if g == Group.IntangibleAssets then Tag.IntangibleAssetsNetExcludingGoodwill
    else if g == Group.Assets then Tag.Assets
    else if g == Group.ShortTermDebt then Tag.DebtCurrent
    else if g == Group.CurrentLiabilities then Tag.LiabilitiesCurrent
    else if g == Group.LongTermDebt then Tag.LongTermDebtNoncurrent
    else if g == Group.Liabilities then Tag.Liabilities
    else if g == Group.RetainedEarnings then Tag.RetainedEarningsAccumulatedDeficit
    else if g == Group.Equity then Tag.StockholdersEquity
    else if g == Group.Amortization then Tag.AmortizationOfIntangibleAssets
    else if g == Group.Depreciation then Tag.Depreciation
    else if g == Group.DepreciationAndAmortization then Tag.DepreciationDepletionAndAmortization
    else if g == Group.OperatingCashFlow then Tag.NetCashProvidedByUsedInOperatingActivities
    else if g == Group.Capex then Tag.PaymentsToAcquirePropertyPlantAndEquipment
    else if g == Group.InvestingCashFlow then Tag.NetCashProvidedByUsedInInvestingActivities
    else Tag.NetCashProvidedByUsedInFinancingActivities
  }


  /** The remaining tags of a group, tried after the canonical one. */
  function Alternates(g: Group): seq<Tag> {
    if g == Group.Revenues then [Tag.SalesRevenueNet, Tag.SalesRevenueServicesNet, Tag.RevenuesNetOfInterestExpense, Tag.RealEstateRevenueNet, Tag.RevenueFromContractWithCustomerIncludingAssessedTax, Tag.RevenueFromContractWithCustomerExcludingAssessedTax, Tag.SalesRevenueGoodsNet, Tag.RevenuesExcludingInterestAndDividends, Tag.RegulatedAndUnregulatedOperatingRevenue]
    else if g == Group.CostOfRevenues then [Tag.CostOfGoodsAndServicesSold, Tag.CostOfGoodsSold, Tag.CostOfServices, Tag.CostOfOtherPropertyOperatingExpense]
    else if g == Group.GrossProfit then []
    else if g == Group.ResearchDevelopmentExpense then [Tag.ResearchAndDevelopmentExpenseExcludingAcquiredInProcessCost]
    else if g == Group.OperatingExpenses then [Tag.CostsAndExpenses, Tag.OperatingCostsAndExpenses, Tag.OperatingExpensesCogs, Tag.BenefitsLossesAndExpenses]
    else if g == Group.OperatingIncome then []
    else if g == Group.InterestExpenseNet then [Tag.InterestExpenseOperating]
    else if g == Group.InterestExpense then []
    else if g == Group.InterestIncome then [Tag.InterestIncomeOther]
    else if g == Group.IncomeContinuingOperations then [Tag.IncomeLossFromContinuingOperationsBeforeIncomeTaxesMinorityInterestAndIncomeLossFromEquityMethodInvestments]
    else if g == Group.TaxesExpense then []
    else if g == Group.NetIncome then [Tag.NetIncomeLossAvailableToCommonStockholdersBasic, Tag.ProfitLoss]
    else if g == Group.DilutedEps then []
    else if g == Group.DilutedSharesOutstanding then []
    else if g == Group.CashAndEquivalents then []
    else if g == Group.Inventories then []
    else if g == Group.CurrentAssets then [Tag.InvestmentsAndCash]
    else if g == Group.PropertyAndEquipment then [Tag.PropertyPlantAndEquipmentAndFinanceLeaseRightOfUseAssetAfterAccumulatedDepreciationAndAmortization]
    else if g == Group.Goodwill then []
    else if g == Group.IntangibleAssets then [Tag.FiniteLivedIntangibleAssetsNet]
    else if g == Group.Assets then []
    else if g == Group.ShortTermDebt then [Tag.LongTermDebtCurrent, Tag.ShortTermBorrowings]
    else if g == Group.CurrentLiabilities then []
    else if g == Group.LongTermDebt then [Tag.LongTermDebtAndCapitalLeaseObligations, Tag.OtherLongTermDebtNoncurrent]
    else if g == Group.Liabilities then []
    else if g == Group.RetainedEarnings then []
    else if g == Group.Equity then [Tag.StockholdersEquityIncludingPortionAttributableToNoncontrollingInterest]
    else if g == Group.Amortization then []
    else if g == Group.Depreciation then []
    else if g == Group.DepreciationAndAmortization then [Tag.DepreciationAmortizationAndAccretionNet]
    else if g == Group.OperatingCashFlow then [Tag.NetCashProvidedByUsedInOperatingActivitiesContinuingOperations]
    else if g == Group.Capex then [Tag.PaymentsToAcquireProductiveAssets, Tag.PaymentsToAcquireOtherPropertyPlantAndEquipment, Tag.PaymentsForCapitalImprovements]
    else if g == Group.InvestingCashFlow then [Tag.NetCashProvidedByUsedInInvestingActivitiesContinuingOperations]
    else [Tag.NetCashProvidedByUsedInFinancingActivitiesContinuingOperations]
  }


  /** The group that lists a tag. */
  function GroupOf(t: Tag): Group {
    if t == Tag.Revenues || t == Tag.SalesRevenueNet || t == Tag.SalesRevenueServicesNet || t == Tag.RevenuesNetOfInterestExpense || t == Tag.RealEstateRevenueNet || t == Tag.RevenueFromContractWithCustomerIncludingAssessedTax || t == Tag.RevenueFromContractWithCustomerExcludingAssessedTax || t == Tag.SalesRevenueGoodsNet || t == Tag.RevenuesExcludingInterestAndDividends || t == Tag.RegulatedAndUnregulatedOperatingRevenue then Group.Revenues
    else if t == Tag.CostOfRevenue || t == Tag.CostOfGoodsAndServicesSold || t == Tag.CostOfGoodsSold || t == Tag.CostOfServices || t == Tag.CostOfOtherPropertyOperatingExpense then Group.CostOfRevenues
    else if t == Tag.GrossProfit then Group.GrossProfit
    else if t == Tag.ResearchAndDevelopmentExpense || t == Tag.ResearchAndDevelopmentExpenseExcludingAcquiredInProcessCost then Group.ResearchDevelopmentExpense
    else if t == Tag.OperatingExpenses || t == Tag.CostsAndExpenses || t == Tag.OperatingCostsAndExpenses || t == Tag.OperatingExpensesCogs || t == Tag.BenefitsLossesAndExpenses then Group.OperatingExpenses
    else if t == Tag.OperatingIncomeLoss then Group.OperatingIncome
    else if t == Tag.InterestIncomeExpenseNonoperatingNet || t == Tag.InterestExpenseOperating then Group.InterestExpenseNet
    else if t == Tag.InterestExpense then Group.InterestExpense
    else if t == Tag.InvestmentIncomeInterest || t == Tag.InterestIncomeOther then Group.InterestIncome
    else if t == Tag.IncomeLossFromContinuingOperationsBeforeIncomeTaxesExtraordinaryItemsNoncontrollingInterest || t == Tag.IncomeLossFromContinuingOperationsBeforeIncomeTaxesMinorityInterestAndIncomeLossFromEquityMethodInvestments then Group.IncomeContinuingOperations
    else if t == Tag.IncomeTaxExpenseBenefit then Group.TaxesExpense
    else if t == Tag.NetIncomeLoss || t == Tag.NetIncomeLossAvailableToCommonStockholdersBasic || t == Tag.ProfitLoss then Group.NetIncome
    else if t == Tag.EarningsPerShareDiluted then Group.DilutedEps
    else if t == Tag.WeightedAverageNumberOfDilutedSharesOutstanding then Group.DilutedSharesOutstanding
    else if t == Tag.CashAndCashEquivalentsAtCarryingValue then Group.CashAndEquivalents
    else if t == Tag.InventoryNet then Group.Inventories
    else if t == Tag.AssetsCurrent || t == Tag.InvestmentsAndCash then Group.CurrentAssets
    else if t == Tag.PropertyPlantAndEquipmentNet || t == Tag.PropertyPlantAndEquipmentAndFinanceLeaseRightOfUseAssetAfterAccumulatedDepreciationAndAmortization then Group.PropertyAndEquipment
    else if t == Tag.Goodwill then Group.Goodwill
    else if t == Tag.IntangibleAssetsNetExcludingGoodwill || t == Tag.FiniteLivedIntangibleAssetsNet then Group.IntangibleAssets
    else if t == Tag.Assets then Group.Assets
    else if t == Tag.DebtCurrent || t == Tag.LongTermDebtCurrent || t == Tag.ShortTermBorrowings then Group.ShortTermDebt
    else if t == Tag.LiabilitiesCurrent then Group.CurrentLiabilities
    else if t == Tag.LongTermDebtNoncurrent || t == Tag.LongTermDebtAndCapitalLeaseObligations || t == Tag.OtherLongTermDebtNoncurrent then Group.LongTermDebt
    else if t == Tag.Liabilities then Group.Liabilities
    else if t == Tag.RetainedEarningsAccumulatedDeficit then Group.RetainedEarnings
    else if t == Tag.StockholdersEquity || t == Tag.StockholdersEquityIncludingPortionAttributableToNoncontrollingInterest then Group.Equity
    else if t == Tag.AmortizationOfIntangibleAssets then Group.Amortization
    else if t == Tag.Depreciation then Group.Depreciation
    else if t == Tag.DepreciationDepletionAndAmortization || t == Tag.DepreciationAmortizationAndAccretionNet then Group.DepreciationAndAmortization
    else if t == Tag.NetCashProvidedByUsedInOperatingActivities || t == Tag.NetCashProvidedByUsedInOperatingActivitiesContinuingOperations then Group.OperatingCashFlow
    else if t == Tag.PaymentsToAcquirePropertyPlantAndEquipment || t == Tag.PaymentsToAcquireProductiveAssets || t == Tag.PaymentsToAcquireOtherPropertyPlantAndEquipment || t == Tag.PaymentsForCapitalImprovements then Group.Capex
    else if t == Tag.NetCashProvidedByUsedInInvestingActivities || t == Tag.NetCashProvidedByUsedInInvestingActivitiesContinuingOperations then Group.InvestingCashFlow
    else Group.FinancingCashFlow
  }


  /** `financial_statements`: the groups in the order the raw database uses. */
  const FinancialStatements: seq<Group> := [Group.Revenues, Group.CostOfRevenues, Group.GrossProfit, Group.ResearchDevelopmentExpense, Group.OperatingExpenses, Group.OperatingIncome, Group.InterestExpenseNet, Group.InterestExpense, Group.InterestIncome, Group.IncomeContinuingOperations, Group.TaxesExpense, Group.NetIncome, Group.DilutedEps, Group.DilutedSharesOutstanding, Group.CashAndEquivalents, Group.Inventories, Group.CurrentAssets, Group.PropertyAndEquipment, Group.Goodwill, Group.IntangibleAssets, Group.Assets, Group.ShortTermDebt, Group.CurrentLiabilities, Group.LongTermDebt, Group.Liabilities, Group.RetainedEarnings, Group.Equity, Group.Amortization, Group.Depreciation, Group.DepreciationAndAmortization, Group.OperatingCashFlow, Group.Capex, Group.InvestingCashFlow, Group.FinancingCashFlow]

  /** The position of a group in `financial_statements`. */
  function Position(g: Group): nat {
    if g == Group.Revenues then 0
    else if g == Group.CostOfRevenues then 1
    else if g == Group.GrossProfit then 2
    else if g == Group.ResearchDevelopmentExpense then 3
    else if g == Group.OperatingExpenses then 4
    else if g == Group.OperatingIncome then 5
    else if g == Group.InterestExpenseNet then 6
    else if g == Group.InterestExpense then 7
    else if g == Group.InterestIncome then 8
    else if g == Group.IncomeContinuingOperations then 9
    else if g == Group.TaxesExpense then 10
    else if g == Group.NetIncome then 11
    else if g == Group.DilutedEps then 12
    else if g == Group.DilutedSharesOutstanding then 13
    else if g == Group.CashAndEquivalents then 14
    else if g == Group.Inventories then 15
    else if g == Group.CurrentAssets then 16
    else if g == Group.PropertyAndEquipment then 17
    else if g == Group.Goodwill then 18
    else if g == Group.IntangibleAssets then 19
    else if g == Group.Assets then 20
    else if g == Group.ShortTermDebt then 21
    else if g == Group.CurrentLiabilities then 22
    else if g == Group.LongTermDebt then 23
    else if g == Group.Liabilities then 24
    else if g == Group.RetainedEarnings then 25
    else if g == Group.Equity then 26
    else if g == Group.Amortization then 27
    else if g == Group.Depreciation then 28
    else if g == Group.DepreciationAndAmortization then 29
    else if g == Group.OperatingCashFlow then 30
    else if g == Group.Capex then 31
    else if g == Group.InvestingCashFlow then 32
    else 33
  }


  /** The short column names that `columns_translation` renames canonical
      tags to, numbered in the order of its entries. */
  newtype Column = n: int | 0 <= n < 32 {
    static const Revenues: Column := 0
    static const Cogs: Column := 1
    static const GrossProfit: Column := 2
    static const RAndD: Column := 3
    static const OpExpenses: Column := 4
    static const OpIncome: Column := 5
    static const InterestNet: Column := 6
    static const InterestExp: Column := 7
    static const InterestInc: Column := 8
    static const NetInc: Column := 9
    static const Eps: Column := 10
    static const Shares: Column := 11
    static const Cash: Column := 12
    static const Inventory: Column := 13
    static const CAssets: Column := 14
    static const Property: Column := 15
    static const Goodwill: Column := 16
    static const IntAssets: Column := 17
    static const Assets: Column := 18
    static const StDebt: Column := 19
    static const CLiabilities: Column := 20
    static const LtDebt: Column := 21
    static const Liabilities: Column := 22
    static const RetEarnings: Column := 23
    static const Equity: Column := 24
    static const Amortization: Column := 25
    static const Depreciation: Column := 26
    static const DepAmort: Column := 27
    static const Opcf: Column := 28
    static const Capex: Column := 29
    static const Incf: Column := 30
    static const Ficf: Column := 31
  }

  /** The column name as it appears in the training table. */
  function Name(c: Column): string {
    if c == Column.Revenues then "REVENUES"
    else if c == Column.Cogs then "COGS"
    else if c == Column.GrossProfit then "GROSSPROFIT"
    else if c == Column.RAndD then "R&D"
    else if c == Column.OpExpenses then "OPEXPENSES"
    else if c == Column.OpIncome then "OPINCOME"
    else if c == Column.InterestNet then "INTERESTNET"
    else if c == Column.InterestExp then "INTERESTEXP"
    else if c == Column.InterestInc then "INTERESTINC"
    else if c == Column.NetInc then "NETINC"
    else if c == Column.Eps then "EPS"
    else if c == Column.Shares then "SHARES"
    else if c == Column.Cash then "CASH"
    else if c == Column.Inventory then "INVENTORY"
    else if c == Column.CAssets then "CASSETS"
    else if c == Column.Property then "PROPERTY"
    else if c == Column.Goodwill then "GOODWILL"
    else if c == Column.IntAssets then "INTASSETS"
    else if c == Column.Assets then "ASSETS"
    else if c == Column.StDebt then "STDEBT"
    else if c == Column.CLiabilities then "CLIABILITIES"
    else if c == Column.LtDebt then "LTDEBT"
    else if c == Column.Liabilities then "LIABILITIES"
    else if c == Column.RetEarnings then "RETEARNINGS"
    else if c == Column.Equity then "EQUITY"
    else if c == Column.Amortization then "AMORTIZATION"
    else if c == Column.Depreciation then "DEPRECIATION"
    else if c == Column.DepAmort then "DEP&AMORT"
    else if c == Column.Opcf then "OPCF"
    else if c == Column.Capex then "CAPEX"
    else if c == Column.Incf then "INCF"
    else "FICF"
  }


  /** `columns_translation` as a lookup: the column a tag is renamed to, or
      `None` for a tag that has no entry. */
  function Translation(t: Tag): Option<Column> {
    if t == Tag.Revenues then Some(Column.Revenues)
    else if t == Tag.CostOfRevenue then Some(Column.Cogs)
    else if t == Tag.GrossProfit then Some(Column.GrossProfit)
    else if t == Tag.ResearchAndDevelopmentExpense then Some(Column.RAndD)
    else if t == Tag.OperatingExpenses then Some(Column.OpExpenses)
    else if t == Tag.OperatingIncomeLoss then Some(Column.OpIncome)
    else if t == Tag.InterestIncomeExpenseNonoperatingNet then Some(Column.InterestNet)
    else if t == Tag.InterestExpense then Some(Column.InterestExp)
    else if t == Tag.InvestmentIncomeInterest then Some(Column.InterestInc)
    else if t == Tag.IncomeLossFromContinuingOperationsBeforeIncomeTaxesExtraordinaryItemsNoncontrollingInterest then Some(Column.NetInc)
    else if t == Tag.EarningsPerShareDiluted then Some(Column.Eps)
    else if t == Tag.WeightedAverageNumberOfDilutedSharesOutstanding then Some(Column.Shares)
    else if t == Tag.CashAndCashEquivalentsAtCarryingValue then Some(Column.Cash)
    else if t == Tag.InventoryNet then Some(Column.Inventory)
    else if t == Tag.AssetsCurrent then Some(Column.CAssets)
    else if t == Tag.PropertyPlantAndEquipmentNet then Some(Column.Property)
    else if t == Tag.Goodwill then Some(Column.Goodwill)
    else if t == Tag.IntangibleAssetsNetExcludingGoodwill then Some(Column.IntAssets)
    else if t == Tag.Assets then Some(Column.Assets)
    else if t == Tag.DebtCurrent then Some(Column.StDebt)
    else if t == Tag.LiabilitiesCurrent then Some(Column.CLiabilities)
    else if t == Tag.LongTermDebtNoncurrent then Some(Column.LtDebt)
    else if t == Tag.Liabilities then Some(Column.Liabilities)
    else if t == Tag.RetainedEarningsAccumulatedDeficit then Some(Column.RetEarnings)
    else if t == Tag.StockholdersEquity then Some(Column.Equity)
    else if t == Tag.AmortizationOfIntangibleAssets then Some(Column.Amortization)
    else if t == Tag.Depreciation then Some(Column.Depreciation)
    else if t == Tag.DepreciationDepletionAndAmortization then Some(Column.DepAmort)
    else if t == Tag.NetCashProvidedByUsedInOperatingActivities then Some(Column.Opcf)
    else if t == Tag.PaymentsToAcquirePropertyPlantAndEquipment then Some(Column.Capex)
    else if t == Tag.NetCashProvidedByUsedInInvestingActivities then Some(Column.Incf)
    else if t == Tag.NetCashProvidedByUsedInFinancingActivities then Some(Column.Ficf)
    else None
  }

  /** The key of the `columns_translation` entry that yields a column. */
  function Key(c: Column): Tag {
    if c == Column.Revenues then Tag.Revenues
    else if c == Column.Cogs then Tag.CostOfRevenue
    else if c == Column.GrossProfit then Tag.GrossProfit
    else if c == Column.RAndD then Tag.ResearchAndDevelopmentExpense
    else if c == Column.OpExpenses then Tag.OperatingExpenses
    else if c == Column.OpIncome then Tag.OperatingIncomeLoss
    else if c == Column.InterestNet then Tag.InterestIncomeExpenseNonoperatingNet
    else if c == Column.InterestExp then Tag.InterestExpense
    else if c == Column.InterestInc then Tag.InvestmentIncomeInterest
    else if c == Column.NetInc then Tag.IncomeLossFromContinuingOperationsBeforeIncomeTaxesExtraordinaryItemsNoncontrollingInterest
    else if c == Column.Eps then Tag.EarningsPerShareDiluted
    else if c == Column.Shares then Tag.WeightedAverageNumberOfDilutedSharesOutstanding
    else if c == Column.Cash then Tag.CashAndCashEquivalentsAtCarryingValue
    else if c == Column.Inventory then Tag.InventoryNet
    else if c == Column.CAssets then Tag.AssetsCurrent
    else if c == Column.Property then Tag.PropertyPlantAndEquipmentNet
    else if c == Column.Goodwill then Tag.Goodwill
    else if c == Column.IntAssets then Tag.IntangibleAssetsNetExcludingGoodwill
    else if c == Column.Assets then Tag.Assets
    else if c == Column.StDebt then Tag.DebtCurrent
    else if c == Column.CLiabilities then Tag.LiabilitiesCurrent
    else if c == Column.LtDebt then Tag.LongTermDebtNoncurrent
    else if c == Column.Liabilities then Tag.Liabilities
    else if c == Column.RetEarnings then Tag.RetainedEarningsAccumulatedDeficit
    else if c == Column.Equity then Tag.StockholdersEquity
    else if c == Column.Amortization then Tag.AmortizationOfIntangibleAssets
    else if c == Column.Depreciation then Tag.Depreciation
    else if c == Column.DepAmort then Tag.DepreciationDepletionAndAmortization
    else if c == Column.Opcf then Tag.NetCashProvidedByUsedInOperatingActivities
    else if c == Column.Capex then Tag.PaymentsToAcquirePropertyPlantAndEquipment
    else if c == Column.Incf then Tag.NetCashProvidedByUsedInInvestingActivities
    else Tag.NetCashProvidedByUsedInFinancingActivities
  }

  // Consistency of the tables. Where the case analysis behind a fact is too
  // large for one proof obligation, the fact is first proved for a range of
  // groups or columns (the numbered helper lemmas) and then assembled.

  /** `TagOwnedBy` for the groups Revenues to OperatingIncome. */
  lemma OwnTags0(g: Group, t: Tag)
    requires g == Group.Revenues
          || g == Group.CostOfRevenues
          || g == Group.GrossProfit
          || g == Group.ResearchDevelopmentExpense
          || g == Group.OperatingExpenses
          || g == Group.OperatingIncome
    requires t in Synonyms(g)
    ensures GroupOf(t) == g
  {
  }

  /** `TagOwnedBy` for the groups InterestExpenseNet to Assets. */
  lemma OwnTags1(g: Group, t: Tag)
    requires g == Group.InterestExpenseNet
          || g == Group.InterestExpense
          || g == Group.InterestIncome
          || g == Group.IncomeContinuingOperations
          || g == Group.TaxesExpense
          || g == Group.NetIncome
          || g == Group.DilutedEps
          || g == Group.DilutedSharesOutstanding
          || g == Group.CashAndEquivalents
          || g == Group.Inventories
          || g == Group.CurrentAssets
          || g == Group.PropertyAndEquipment
          || g == Group.Goodwill
          || g == Group.IntangibleAssets
          || g == Group.Assets
    requires t in Synonyms(g)
    ensures GroupOf(t) == g
  {
  }

  /** `TagOwnedBy` for the groups ShortTermDebt to InvestingCashFlow. */
  lemma OwnTags2(g: Group, t: Tag)
    requires g == Group.ShortTermDebt
          || g == Group.CurrentLiabilities
          || g == Group.LongTermDebt
          || g == Group.Liabilities
          || g == Group.RetainedEarnings
          || g == Group.Equity
          || g == Group.Amortization
          || g == Group.Depreciation
          || g == Group.DepreciationAndAmortization
          || g == Group.OperatingCashFlow
          || g == Group.Capex
          || g == Group.InvestingCashFlow
    requires t in Synonyms(g)
    ensures GroupOf(t) == g
  {
  }

  /** `TagOwnedBy` for the group FinancingCashFlow. */
  lemma OwnTags3(g: Group, t: Tag)
    requires g == Group.FinancingCashFlow
    requires t in Synonyms(g)
    ensures GroupOf(t) == g
  {
  }

  /** A tag listed by a group belongs to that group. */
  lemma TagOwnedBy(g: Group, t: Tag)
    requires t in Synonyms(g)
    ensures GroupOf(t) == g
  {
    if g <= Group.OperatingIncome {
      OwnTags0(g, t);
    } else if g <= Group.Assets {
      OwnTags1(g, t);
    } else if g <= Group.InvestingCashFlow {
      OwnTags2(g, t);
    } else {
      OwnTags3(g, t);
    }
  }

  /** No taxonomy tag appears in two synonym groups. */
  lemma NoTagInTwoGroups(g1: Group, g2: Group, t: Tag)
    requires t in Synonyms(g1) && t in Synonyms(g2)
    ensures g1 == g2
  {
    TagOwnedBy(g1, t);
    TagOwnedBy(g2, t);
  }

  /** Every tag is listed by the group `GroupOf` assigns it. */
  lemma GroupOfListsTag(t: Tag)
    ensures t in Synonyms(GroupOf(t))
  {
  }

  /** `NameInjective` for the columns Revenues to Property. */
  lemma NamesDiffer0(c1: Column, c2: Column)
    requires c1 == Column.Revenues
          || c1 == Column.Cogs
          || c1 == Column.GrossProfit
          || c1 == Column.RAndD
          || c1 == Column.OpExpenses
          || c1 == Column.OpIncome
          || c1 == Column.InterestNet
          || c1 == Column.InterestExp
          || c1 == Column.InterestInc
          || c1 == Column.NetInc
          || c1 == Column.Eps
          || c1 == Column.Shares
          || c1 == Column.Cash
          || c1 == Column.Inventory
          || c1 == Column.CAssets
          || c1 == Column.Property
    requires c1 != c2
    ensures Name(c1) != Name(c2)
  {
  }

  /** `NameInjective` for the columns Goodwill to Ficf. */
  lemma NamesDiffer1(c1: Column, c2: Column)
    requires c1 == Column.Goodwill
          || c1 == Column.IntAssets
          || c1 == Column.Assets
          || c1 == Column.StDebt
          || c1 == Column.CLiabilities
          || c1 == Column.LtDebt
          || c1 == Column.Liabilities
          || c1 == Column.RetEarnings
          || c1 == Column.Equity
          || c1 == Column.Amortization
          || c1 == Column.Depreciation
          || c1 == Column.DepAmort
          || c1 == Column.Opcf
          || c1 == Column.Capex
          || c1 == Column.Incf
          || c1 == Column.Ficf
    requires c1 != c2
    ensures Name(c1) != Name(c2)
  {
  }

  /** Distinct columns have distinct names. */
  lemma NameInjective(c1: Column, c2: Column)
    requires c1 != c2
    ensures Name(c1) != Name(c2)
  {
    if c1 <= Column.Property {
      NamesDiffer0(c1, c2);
    } else {
      NamesDiffer1(c1, c2);
    }
  }

  /** Every key of `columns_translation` is the canonical tag of its group,
      and is the only key whose entry yields its column. */
  lemma TranslationKeyIsCanonical(t: Tag)
    requires Translation(t).Some?
    ensures Canonical(GroupOf(t)) == t && Key(Translation(t).value) == t
  {
  }

  /** Every column is yielded by the entry whose key `Key` names. */
  lemma KeyTranslates(c: Column)
    ensures Translation(Key(c)) == Some(c)
  {
  }

  /** Two keys of `columns_translation` never yield the same column. */
  lemma TranslationInjective(t: Tag, u: Tag)
    requires Translation(t).Some? && Translation(u) == Translation(t)
    ensures u == t
  {
    TranslationKeyIsCanonical(t);
    TranslationKeyIsCanonical(u);
  }

  /** The values of `columns_translation` are pairwise distinct. */
  lemma TranslatedNamesDistinct(t: Tag, u: Tag)
    requires Translation(t).Some? && Translation(u).Some? && t != u
    ensures Name(Translation(t).value) != Name(Translation(u).value)
  {
    if Translation(u) == Translation(t) {
      TranslationInjective(t, u);
    }
    NameInjective(Translation(t).value, Translation(u).value);
  }

  /** The canonical tag of every group has a `columns_translation` entry,
      except those of `taxesExpense` and `netIncome`. */
  lemma UntranslatedHeads(g: Group)
    ensures Translation(Canonical(g)).Some? <==> g != Group.TaxesExpense && g != Group.NetIncome
  {
  }

  /** `financial_statements` lists 34 groups, each at the position
      `Position` gives it; so no group is listed twice. */
  lemma FinancialStatementsOrder()
    ensures |FinancialStatements| == 34
    ensures forall i :: 0 <= i < |FinancialStatements| ==> Position(FinancialStatements[i]) == i
    ensures forall i, j :: 0 <= i < j < |FinancialStatements| ==> FinancialStatements[i] != FinancialStatements[j]
  {
  }

  /** Every synonym group is listed in `financial_statements`. */
  lemma EveryGroupListed(g: Group)
    ensures Position(g) < |FinancialStatements| && FinancialStatements[Position(g)] == g
  {
  }

  /** The first fiscal year of `years`. */
  const FirstYear: int := 2009

  /** `years`: the fiscal years from `FirstYear` up to, but not including,
      the current calendar year. */
  function Years(currentYear: int): (ys: seq<int>)
    ensures |ys| == if currentYear <= FirstYear then 0 else currentYear - FirstYear
    ensures forall i :: 0 <= i < |ys| ==> ys[i] == FirstYear + i
    decreases currentYear - FirstYear
  {
    if currentYear <= FirstYear then [] else Years(currentYear - 1) + [currentYear - 1]
  }

  /** A year is listed exactly when it lies in the half-open range. */
  lemma YearsMembership(currentYear: int, y: int)
    ensures y in Years(currentYear) <==> FirstYear <= y < currentYear
  {
    var ys := Years(currentYear);
    if FirstYear <= y < currentYear {
      assert ys[y - FirstYear] == y;
    }
  }

  /** `ERROR_MESSAGE1`: the text EDGAR shows for an unknown ticker. */
  const ErrorMessage1: string := "No matching Ticker Symbol"

  /** `ERROR_MESSAGE2`: the text EDGAR shows for a malformed request; the
      scraper never tests for it. */
  const ErrorMessage2: string := "The value you submitted is not valid"
}
