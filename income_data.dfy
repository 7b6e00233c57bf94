/**
 * The static dataset: the record shapes `IncomeCategory` and `OccupationCategory`
 * and the constant collections `incomeCategories`, `occupationCategories` and
 * `feeCategories` (lib/income-data.ts). Every record carries a code, a name and
 * both tax-rate strings; every other field is optional.
 */
module IncomeData {
  import opened Wrappers

  /** Withholding rates for residents and non-residents, kept as display text. */
  datatype TaxRate = TaxRate(resident: string, nonResident: string)

  /** An income category (所得類別). */
  datatype IncomeCategory = IncomeCategory(
    code: string,
    name: string,
    formatCode: Option<string>,
    taxRate: TaxRate,
    description: Option<string>,
    healthInsuranceCode: Option<string>,
    healthInsuranceName: Option<string>,
    feeCategory: Option<string>,
    examples: Option<seq<string>>,
    notes: Option<string>,
    exemptionLimit: Option<string>,
    withholdingThreshold: Option<string>)

  /** An occupation category (執行業務者業別). */
  datatype OccupationCategory = OccupationCategory(
    code: string,
    name: string,
    taxRate: TaxRate,
    description: Option<string>,
    category: Option<string>)

  const incomeCategories: seq<IncomeCategory> := [
    IncomeCategory(
      code := "0",
      name := "免列所得",
      formatCode := None,
      taxRate := TaxRate("免稅", "免稅"),
      description := Some("不需列入所得計算的項目"),
      healthInsuranceCode := None,
      healthInsuranceName := None,
      feeCategory := None,
      examples := Some([
        "導師費、主管加給(編制內主管)",
        "入學考試試務人員各種工作費、命題、閱卷費",
        "論文考試口試費、車馬費",
        "公務員之福利互助金",
        "執行職務差旅費、日支費、加班費(不超過規定標準)",
        "退休人員三節慰問金",
        "死亡員工之喪葬補助費",
        "成績排名之獎學金、僑生公費、運動比賽優異獎助學金",
        "清寒優秀學生獎學金(以成績為條件者)",
        "教育部及各單位來文表示其補助為免稅項目"]),
      notes := Some("依勞動基準法第24條規定「延長工作時間之工資」及第32條規定「每月平日延長工作總時數」限度內支領之加班費，可免納所得稅"),
      exemptionLimit := None,
      withholdingThreshold := None),
    IncomeCategory(
      code := "50",
      name := "薪資所得",
      formatCode := Some("50"),
      taxRate := TaxRate("固定薪資：按薪資所得扣繳稅額表扣繳 / 非固定薪資：5% (起扣標準88,501元)", "基本工資1.5倍以下(41,205元)：6% / 超過基本工資1.5倍：18%"),
      description := Some("包含酬勞、工資、工作酬勞、助理薪資、兼職酬金、工作所得、助理費、人事費、工讀費等"),
      healthInsuranceCode := Some("62/63"),
      healthInsuranceName := Some("獎金/兼職所得"),
      feeCategory := None,
      examples := Some([
        "薪資：包含酬勞、工資、工作酬勞、助理薪資、兼職酬金、工作所得、助理費、人事費、工讀費、工讀助學金、工作費、臨時工資、各類津貼、年終獎金、考績獎金、調薪差額、晉級差額等",
        "授課鐘點費：包含學校開課、訓練班、講習會等排定課程發給之鐘點費",
        "科技部等撥付研究生獎助學金",
        "各機關、單位委託專案研究補助費",
        "公務員之各種補助費收入",
        "研究費（無研究計畫及定期定額給付）",
        "結婚、眷喪、生育、子女教育、健康檢查、休假旅遊補助費",
        "諮詢費、實驗受測費、問卷調查費、訪談費、輔導費、出席費、主持費、講座費、講評費、論文發表費、一般審查費（專案研究報告及著作等審查）、教材編輯費、打字費、資料蒐集費、清潔費、口語翻譯費"]),
      notes := Some("授課鐘點費與講演鐘點費需區分：授課鐘點費屬薪資所得，講演鐘點費屬執行業務所得"),
      exemptionLimit := None,
      withholdingThreshold := Some("88,501元")),
    IncomeCategory(
      code := "9A",
      name := "執行業務所得",
      formatCode := Some("9A"),
      taxRate := TaxRate("10% (扣繳稅額不超過2,000元免予扣繳)", "20% (無論金額大小)"),
      description := Some("律師、會計師、建築師、技師、醫師、藥師、著作人、代書、工匠和表演人及其他以技藝自力營生者的業務收入或演技收入"),
      healthInsuranceCode := Some("65"),
      healthInsuranceName := Some("執行業務收入"),
      feeCategory := None,
      examples := Some([
        "律師、會計師、醫師、建築師、技師、藥師、地政士、記帳士、專利代理人等（須取有證書或執照），及其事務所、診所、醫院",
        "專業表演人（演員、歌手、模特兒、節目主持人、舞者、相聲、魔術、特技、樂器等）、書畫家、著作人、漫畫家、編劇者等"]),
      notes := Some("上述人員如係採聘僱方式任用，則其報酬應屬薪資，而非執行業務"),
      exemptionLimit := None,
      withholdingThreshold := Some("20,010元")),
    IncomeCategory(
      code := "9B",
      name := "執行業務所得稿費、演講費等",
      formatCode := Some("9B"),
      taxRate := TaxRate("10% (扣繳稅額不超過2,000元免予扣繳)", "20% (每次給付金額不超過5,000元免予扣繳)"),
      description := Some("稿費、演講費、演講鐘點費等，定額免稅18萬元"),
      healthInsuranceCode := Some("65"),
      healthInsuranceName := Some("執行業務收入"),
      feeCategory := Some("98/99"),
      examples := Some([
        "專題演講鐘點費：於公眾集會場所且無固定場所、時間、對象之演講(不特定人士參與)",
        "稿費、編撰費、翻譯費（非僱用關係自由投稿並經出版或刊登報章雜誌之期刊、學刊等；含翻譯、改稿、審查、審訂等）",
        "論文指導費、口試費",
        "審查費(專任教師升等著作、期刊、學報、畢業論文等)、系所評鑑品保報告審查",
        "版稅(非自行出版9B98、自行出版9B99)"]),
      notes := Some("稿費係以本人著作、翻譯、創作之文稿，並按字計酬。與稿費、版稅、樂譜、作曲、編劇、漫畫等全年合計數不超過新台幣18萬元者，免納所得稅"),
      exemptionLimit := Some("18萬元"),
      withholdingThreshold := Some("20,010元")),
    IncomeCategory(
      code := "51",
      name := "租賃所得",
      formatCode := Some("51"),
      taxRate := TaxRate("10% (扣繳稅額不超過2,000元免予扣繳)", "20% (無論金額大小)"),
      description := Some("租賃房屋、土地、車位等收入"),
      healthInsuranceCode := Some("68"),
      healthInsuranceName := Some("租金"),
      feeCategory := None,
      examples := Some([
        "租賃房屋、土地、車位",
        "借用場地所付的使用費、清理費"]),
      notes := Some("取得統一發票者，免扣繳。場地租金需提供房屋稅籍編號及土地地段地號"),
      exemptionLimit := None,
      withholdingThreshold := Some("20,010元")),
    IncomeCategory(
      code := "53",
      name := "權利金",
      formatCode := Some("53"),
      taxRate := TaxRate("10% (扣繳稅額不超過2,000元免予扣繳)", "20% (無論金額大小)"),
      description := Some("專利權、商標權、著作權供他人使用而取得之權利金所得"),
      healthInsuranceCode := None,
      healthInsuranceName := None,
      feeCategory := None,
      examples := Some([
        "專利權（技轉金）",
        "商標權使用費",
        "著作權授權費"]),
      notes := None,
      exemptionLimit := None,
      withholdingThreshold := Some("20,010元")),
    IncomeCategory(
      code := "91",
      name := "競技競賽及機會中獎之獎金",
      formatCode := Some("91"),
      taxRate := TaxRate("10% (扣繳稅額不超過2,000元免予扣繳)", "20% (無論金額大小)"),
      description := Some("各項比賽獎金、抽獎獎金及獎品價值"),
      healthInsuranceCode := None,
      healthInsuranceName := None,
      feeCategory := None,
      examples := Some([
        "各項比賽獎金（實物依購買成本認列）",
        "活動摸彩、年終尾牙摸彩之獎金或獎品",
        "各類競技比賽及抽獎之獎金及獎品價值"]),
      notes := Some("版權歸公改列【9B】。參加活動送的小獎品是贈品不列所得(人人有獎)"),
      exemptionLimit := None,
      withholdingThreshold := Some("20,010元")),
    IncomeCategory(
      code := "92",
      name := "其他所得",
      formatCode := Some("92"),
      taxRate := TaxRate("免扣繳（應列單）", "20%"),
      description := Some("不屬於其他類別之所得"),
      healthInsuranceCode := None,
      healthInsuranceName := None,
      feeCategory := None,
      examples := Some([
        "表演團體、劇團、急難救助金（無統一發票者）",
        "財團法人醫療院所之醫療費用",
        "特殊優良教師獎金、資深優良教師獎勵金、模範公務人員及傑出貢獻獎之獎金",
        "技術移轉分配有功獎勵金",
        "各類研討會報名費及註冊費(入會費、年費免列)、教育訓練費等"]),
      notes := None,
      exemptionLimit := None,
      withholdingThreshold := None),
    IncomeCategory(
      code := "93",
      name := "退職所得",
      formatCode := Some("93"),
      taxRate := TaxRate("6%", "18%"),
      description := Some("退休金、資遣費、退職金、離職金、終身俸及非屬保險給付之養老金等所得"),
      healthInsuranceCode := None,
      healthInsuranceName := None,
      feeCategory := None,
      examples := Some([
        "凡個人領取之退休金、資遣費、退職金、離職金、終身俸及非屬保險給付之養老金等所得",
        "分期領取退職所得之退休公務人員所領之年終慰問金及子女教育補助"]),
      notes := Some("個人領取歷年自薪資所得中自行繳付儲金之部分及其孳息，不在此限。退職所得有定額免稅標準"),
      exemptionLimit := None,
      withholdingThreshold := None),
    IncomeCategory(
      code := "95",
      name := "政府補助款",
      formatCode := Some("95A/95B"),
      taxRate := TaxRate("免扣繳（應列單）", "免扣繳（應列單）"),
      description := Some("政府補助款分為實報實銷(95A)和非實報實銷(95B)"),
      healthInsuranceCode := None,
      healthInsuranceName := None,
      feeCategory := None,
      examples := Some([
        "政府補助款(非實報實銷) 95B",
        "政府補助款(實報實銷) 95A"]),
      notes := None,
      exemptionLimit := None,
      withholdingThreshold := None)
  ]

  /**
   * The occupation records, in source order. The single array literal is written
   * as one block per leading code digit (10-19, 20-29, ...), joined with `+`.
   */
  const occupationCategories: seq<OccupationCategory> :=
    [
      OccupationCategory("10", "律師", TaxRate("10%", "20%"), None, Some("法律專業")),
      OccupationCategory("11", "會計師", TaxRate("10%", "20%"), None, Some("會計專業")),
      OccupationCategory("12", "精算師", TaxRate("10%", "20%"), None, Some("金融專業")),
      OccupationCategory("13", "地政士", TaxRate("10%", "20%"), None, Some("地政專業")),
      OccupationCategory("14", "記帳士", TaxRate("10%", "20%"), None, Some("會計專業")),
      OccupationCategory("15", "仲裁人", TaxRate("10%", "20%"), None, Some("法律專業")),
      OccupationCategory("16", "民間公證人", TaxRate("10%", "20%"), None, Some("法律專業")),
      OccupationCategory("17", "不動產估價師", TaxRate("10%", "20%"), None, Some("不動產專業")),
      OccupationCategory("18", "受委託代辦國有非公用不動產之承租、續租、過戶及繼承等申請者", TaxRate("10%", "20%"), None, Some("不動產專業")),
      OccupationCategory("19", "記帳及報稅代理業務人", TaxRate("10%", "20%"), None, Some("會計專業"))
    ]
    + [
      OccupationCategory("20", "技師", TaxRate("10%", "20%"), None, Some("工程專業")),
      OccupationCategory("21", "建築師", TaxRate("10%", "20%"), None, Some("建築專業")),
      OccupationCategory("22", "公共安檢人員", TaxRate("10%", "20%"), None, Some("安全檢查")),
      OccupationCategory("23", "未具會計師資格，辦理工商登記等業務者", TaxRate("10%", "20%"), None, Some("商業服務")),
      OccupationCategory("24", "工匠(工資收入)", TaxRate("10%", "20%"), Some("不以執行業務所得投保"), Some("技藝工作")),
      OccupationCategory("25", "工匠(工料收入)", TaxRate("10%", "20%"), Some("不以執行業務所得投保"), Some("技藝工作")),
      OccupationCategory("26", "引水人", TaxRate("10%", "20%"), None, Some("航運服務")),
      OccupationCategory("29", "美術工藝家(工料收入)", TaxRate("10%", "20%"), None, Some("藝術創作"))
    ]
    + [
      OccupationCategory("30", "內科醫師", TaxRate("10%", "20%"), None, Some("醫療專業")),
      OccupationCategory("31", "外科醫師", TaxRate("10%", "20%"), None, Some("醫療專業")),
      OccupationCategory("32", "小兒科醫師", TaxRate("10%", "20%"), None, Some("醫療專業")),
      OccupationCategory("33", "婦產科醫師", TaxRate("10%", "20%"), None, Some("醫療專業")),
      OccupationCategory("34", "眼科醫師", TaxRate("10%", "20%"), None, Some("醫療專業")),
      OccupationCategory("35", "耳鼻喉科醫師", TaxRate("10%", "20%"), None, Some("醫療專業")),
      OccupationCategory("36", "牙科醫師", TaxRate("10%", "20%"), None, Some("醫療專業")),
      OccupationCategory("37", "精神科醫師", TaxRate("10%", "20%"), None, Some("醫療專業")),
      OccupationCategory("38", "骨科醫師", TaxRate("10%", "20%"), None, Some("醫療專業")),
      OccupationCategory("39", "其他科別醫師", TaxRate("10%", "20%"), None, Some("醫療專業"))
    ]
    + [
      OccupationCategory("40", "助產師(士)", TaxRate("10%", "20%"), None, Some("醫療專業")),
      OccupationCategory("41", "藥師", TaxRate("10%", "20%"), None, Some("醫療專業")),
      OccupationCategory("42", "醫事檢驗師(生)", TaxRate("10%", "20%"), None, Some("醫療專業")),
      OccupationCategory("43", "整合照護", TaxRate("10%", "20%"), None, Some("醫療專業")),
      OccupationCategory("44", "駐診拆帳西醫", TaxRate("10%", "20%"), None, Some("醫療專業")),
      OccupationCategory("45", "營養師", TaxRate("10%", "20%"), None, Some("醫療專業")),
      OccupationCategory("46", "醫師經核准至該他醫療機構服務但與該他醫療機構不具僱傭關係者", TaxRate("10%", "20%"), None, Some("醫療專業")),
      OccupationCategory("47", "獸醫師", TaxRate("10%", "20%"), None, Some("獸醫專業")),
      OccupationCategory("48", "皮膚科醫師", TaxRate("10%", "20%"), None, Some("醫療專業")),
      OccupationCategory("49", "家庭醫學科醫師", TaxRate("10%", "20%"), None, Some("醫療專業"))
    ]
    + [
      OccupationCategory("50", "中醫師", TaxRate("10%", "20%"), None, Some("醫療專業")),
      OccupationCategory("51", "語言治療師", TaxRate("10%", "20%"), None, Some("醫療專業")),
      OccupationCategory("52", "人壽保險醫療檢查", TaxRate("10%", "20%"), None, Some("保險服務")),
      OccupationCategory("53", "物理治療師", TaxRate("10%", "20%"), None, Some("醫療專業")),
      OccupationCategory("54", "職能治療師", TaxRate("10%", "20%"), None, Some("醫療專業")),
      OccupationCategory("55", "心理師", TaxRate("10%", "20%"), None, Some("醫療專業")),
      OccupationCategory("56", "牙體技術師(生)", TaxRate("10%", "20%"), None, Some("醫療專業")),
      OccupationCategory("57", "配合政府政策辦理老人、兒童、中低收入者、身心障礙者及其他特定對象補助", TaxRate("10%", "20%"), None, Some("社會服務")),
      OccupationCategory("58", "自費疫苗注射收入", TaxRate("10%", "20%"), None, Some("醫療專業"))
    ]
    + [
      OccupationCategory("61", "書畫家、版畫家", TaxRate("10%", "20%"), None, Some("藝術創作")),
      OccupationCategory("62", "命理卜卦", TaxRate("10%", "20%"), None, Some("民俗服務"))
    ]
    + [
      OccupationCategory("70", "表演人", TaxRate("10%", "20%"), None, Some("表演藝術")),
      OccupationCategory("71", "保險經紀人", TaxRate("10%", "20%"), None, Some("保險服務")),
      OccupationCategory("72", "節目製作人", TaxRate("10%", "20%"), None, Some("媒體製作")),
      OccupationCategory("73", "公益彩券甲類經銷商", TaxRate("10%", "20%"), None, Some("彩券銷售")),
      OccupationCategory("76", "一般經紀人", TaxRate("10%", "20%"), None, Some("經紀服務"))
    ]
    + [
      OccupationCategory("90", "其他", TaxRate("10%", "20%"), None, Some("其他專業")),
      OccupationCategory("91", "商標代理人", TaxRate("10%", "20%"), None, Some("智慧財產")),
      OccupationCategory("92", "程式設計師", TaxRate("10%", "20%"), None, Some("資訊技術")),
      OccupationCategory("93", "專利師及專利代理人", TaxRate("10%", "20%"), None, Some("智慧財產")),
      OccupationCategory("94", "未具律師資格，辦理訴訟代理人業務", TaxRate("10%", "20%"), None, Some("法律服務")),
      OccupationCategory("95", "未具建築師資格，辦理建築規劃設計及監造等業務者", TaxRate("10%", "20%"), None, Some("建築服務")),
      OccupationCategory("96", "未具地政士資格，辦理土地登記等業務者", TaxRate("10%", "20%"), None, Some("地政服務")),
      OccupationCategory("97", "受大陸地區人民委託辦理繼承、公法給付或其他事務者", TaxRate("10%", "20%"), None, Some("跨境服務"))
    ]

  const feeCategories: map<string, string> := map[
    "98" := "非自行出版之稿費、版稅、樂譜、作曲、編劇、漫畫及演講之鐘點費等七項",
    "99" := "自行出版之稿費、版稅、作曲、編劇、漫畫等"
  ]

  /** The codes of a collection, in collection order. */
  function IncomeCodes(xs: seq<IncomeCategory>): (r: seq<string>)
    ensures |r| == |xs| && forall i :: 0 <= i < |xs| ==> r[i] == xs[i].code
  {
    seq(|xs|, i requires 0 <= i < |xs| => xs[i].code)
  }

  function OccupationCodes(xs: seq<OccupationCategory>): (r: seq<string>)
    ensures |r| == |xs| && forall i :: 0 <= i < |xs| ==> r[i] == xs[i].code
  {
    seq(|xs|, i requires 0 <= i < |xs| => xs[i].code)
  }

  /** No two positions hold the same code, so a code can serve as a list key. */
  predicate DistinctCodes(codes: seq<string>)
  {
    forall i, j :: 0 <= i < j < |codes| ==> codes[i] != codes[j]
  }

  /** `incomeCategories` has ten records, in this order of codes. */
  lemma IncomeCodesInOrder()
    ensures |incomeCategories| == 10
    ensures IncomeCodes(incomeCategories) == ["0", "50", "9A", "9B", "51", "53", "91", "92", "93", "95"]
  {
  }

  /** Codes are distinct within `incomeCategories`. */
  lemma IncomeCodesDistinct()
    ensures DistinctCodes(IncomeCodes(incomeCategories))
  {
    IncomeCodesInOrder();
  }

  /** A code of two decimal digits, such as every occupation code. */
  predicate TwoDigits(c: string)
  {
    |c| == 2 && '0' <= c[0] <= '9' && '0' <= c[1] <= '9'
  }

  function TwoDigitValue(c: string): (n: int)
    requires TwoDigits(c)
    ensures 0 <= n < 100
  {
    (c[0] as int - '0' as int) * 10 + (c[1] as int - '0' as int)
  }

  /** Two-digit codes listed in strictly increasing numeric order. */
  predicate AscendingTwoDigitCodes(codes: seq<string>)
  {
    (forall i :: 0 <= i < |codes| ==> TwoDigits(codes[i]))
    && forall i :: 0 <= i < |codes| - 1 ==> TwoDigitValue(codes[i]) < TwoDigitValue(codes[i + 1])
  }

  /** Codes in strictly ascending order are pairwise distinct. */
  lemma {:induction false} AscendingCodesDistinct(codes: seq<string>)
    requires AscendingTwoDigitCodes(codes)
    ensures forall i, j :: 0 <= i < j < |codes| ==> TwoDigitValue(codes[i]) < TwoDigitValue(codes[j])
    ensures DistinctCodes(codes)
  {
    if |codes| > 1 {
      assert forall k :: 0 < k < |codes| ==> codes[k] == codes[1..][k - 1];
      AscendingCodesDistinct(codes[1..]);
      forall i, j | 0 <= i < j < |codes| ensures TwoDigitValue(codes[i]) < TwoDigitValue(codes[j]) {
        if i > 0 {
          assert codes[i] == codes[1..][i - 1] && codes[j] == codes[1..][j - 1];
        } else if j > 1 {
          assert codes[1] == codes[1..][0] && codes[j] == codes[1..][j - 1];
        }
      }
    }
  }

  /**
   * Every occupation record has a two-digit code, the codes ascend through the
   * list, and every record withholds 10% for residents and 20% for non-residents.
   */
  lemma OccupationRowsChecked()
    ensures AscendingTwoDigitCodes(OccupationCodes(occupationCategories))
    ensures forall i :: 0 <= i < |occupationCategories| ==>
      occupationCategories[i].taxRate == TaxRate("10%", "20%")
  {
    var codes := OccupationCodes(occupationCategories);
    forall i | 0 <= i < |codes|
      ensures TwoDigits(codes[i]) && occupationCategories[i].taxRate == TaxRate("10%", "20%")
      ensures i + 1 < |codes| ==> TwoDigits(codes[i + 1]) && TwoDigitValue(codes[i]) < TwoDigitValue(codes[i + 1])
    {
      OccupationRowChecked(i);
    }
  }

  /** The facts of `OccupationRowsChecked` at one index. */
  lemma OccupationRowChecked(i: int)
    requires 0 <= i < |occupationCategories|
    ensures OccupationRowFacts(i)
  {
    // one case per block of the literal, which keeps each proof small
    if i < 5 { OccupationRowsFrom0(i); }
    else if i < 10 { OccupationRowsFrom5(i); }
    else if i < 14 { OccupationRowsFrom10(i); }
    else if i < 18 { OccupationRowsFrom14(i); }
    else if i < 23 { OccupationRowsFrom18(i); }
    else if i < 28 { OccupationRowsFrom23(i); }
    else if i < 33 { OccupationRowsFrom28(i); }
    else if i < 38 { OccupationRowsFrom33(i); }
    else if i < 43 { OccupationRowsFrom38(i); }
    else if i < 47 { OccupationRowsFrom43(i); }
    else if i < 52 { OccupationRowsFrom47(i); }
    else if i < 57 { OccupationRowsFrom52(i); }
    else { OccupationRowsFrom57(i); }
  }

  // The lemmas OccupationRowsFromN below have empty bodies: each only restricts the
  // index to one block of the literal, so that every proof unfolds a few records
  // and stays within the verifier's resource limit.

  ghost predicate OccupationRowFacts(i: int)
    requires 0 <= i < |occupationCategories|
  {
    var code := occupationCategories[i].code;
    TwoDigits(code)
    && occupationCategories[i].taxRate == TaxRate("10%", "20%")
    && (i + 1 < |occupationCategories| ==>
          var next := occupationCategories[i + 1].code;
          TwoDigits(next) && TwoDigitValue(code) < TwoDigitValue(next))
  }

  lemma OccupationRowsFrom0(i: int)
    requires 0 <= i < 5 && i < |occupationCategories|
    ensures OccupationRowFacts(i)
  {
  }

  lemma OccupationRowsFrom5(i: int)
    requires 5 <= i < 10 && i < |occupationCategories|
    ensures OccupationRowFacts(i)
  {
  }

  lemma OccupationRowsFrom10(i: int)
    requires 10 <= i < 14 && i < |occupationCategories|
    ensures OccupationRowFacts(i)
  {
  }

  lemma OccupationRowsFrom14(i: int)
    requires 14 <= i < 18 && i < |occupationCategories|
    ensures OccupationRowFacts(i)
  {
  }

  lemma OccupationRowsFrom18(i: int)
    requires 18 <= i < 23 && i < |occupationCategories|
    ensures OccupationRowFacts(i)
  {
  }

  lemma OccupationRowsFrom23(i: int)
    requires 23 <= i < 28 && i < |occupationCategories|
    ensures OccupationRowFacts(i)
  {
  }

  lemma OccupationRowsFrom28(i: int)
    requires 28 <= i < 33 && i < |occupationCategories|
    ensures OccupationRowFacts(i)
  {
  }

  lemma OccupationRowsFrom33(i: int)
    requires 33 <= i < 38 && i < |occupationCategories|
    ensures OccupationRowFacts(i)
  {
  }

  lemma OccupationRowsFrom38(i: int)
    requires 38 <= i < 43 && i < |occupationCategories|
    ensures OccupationRowFacts(i)
  {
  }

  lemma OccupationRowsFrom43(i: int)
    requires 43 <= i < 47 && i < |occupationCategories|
    ensures OccupationRowFacts(i)
  {
  }

  lemma OccupationRowsFrom47(i: int)
    requires 47 <= i < 52 && i < |occupationCategories|
    ensures OccupationRowFacts(i)
  {
  }

  lemma OccupationRowsFrom52(i: int)
    requires 52 <= i < 57 && i < |occupationCategories|
    ensures OccupationRowFacts(i)
  {
  }

  lemma OccupationRowsFrom57(i: int)
    requires 57 <= i < 62 && i < |occupationCategories|
    ensures OccupationRowFacts(i)
  {
  }

  /** Codes are distinct within `occupationCategories`: they ascend from "10" to "97". */
  lemma OccupationCodesDistinct()
    ensures |occupationCategories| == 62
    ensures DistinctCodes(OccupationCodes(occupationCategories))
  {
    OccupationRowsChecked();
    AscendingCodesDistinct(OccupationCodes(occupationCategories));
  }

  /** Every record in both collections has a non-empty code. */
  lemma CodesNonEmpty()
    ensures forall i :: 0 <= i < |incomeCategories| ==> incomeCategories[i].code != ""
    ensures forall i :: 0 <= i < |occupationCategories| ==> occupationCategories[i].code != ""
  {
    IncomeCodesInOrder();
    assert forall i :: 0 <= i < |incomeCategories| ==> incomeCategories[i].code == IncomeCodes(incomeCategories)[i];
    OccupationRowsChecked();
    assert forall i :: 0 <= i < |occupationCategories| ==> occupationCategories[i].code == OccupationCodes(occupationCategories)[i];
  }

  /**
   * Codes are not unique across the collections: "50" is the income category
   * 薪資所得 and also the occupation 中醫師.
   */
  lemma CodeSharedAcrossCollections()
    ensures incomeCategories[1].code == occupationCategories[38].code == "50"
    ensures incomeCategories[1].name == "薪資所得" && occupationCategories[38].name == "中醫師"
  {
  }

  /**
   * `feeCategories` has exactly the keys "98" and "99", the two halves of the
   * `feeCategory` "98/99" of the 9B record, the only income record with a fee category.
   */
  lemma FeeCategoriesMatch9B()
    ensures feeCategories.Keys == {"98", "99"}
    ensures incomeCategories[3].code == "9B" && incomeCategories[3].feeCategory == Some("98" + "/" + "99")
    ensures forall i :: 0 <= i < |incomeCategories| && i != 3 ==> incomeCategories[i].feeCategory == None
  {
    assert "98" in feeCategories.Keys && "99" in feeCategories.Keys;
    assert incomeCategories[3].feeCategory == Some("98/99");
    assert "98" + "/" + "99" == "98/99";
  }
}
