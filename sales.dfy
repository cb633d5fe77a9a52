/**
  The sales sheet as an in-memory list of typed rows, the sale channels, and
  the filtering and summing the scripts do over it with pandas masks.
 */
module Sales {
  import opened Wrappers
  import opened Dates
  import opened Masks

  /** One row of the sales sheet, with the columns the scripts read. */
  datatype Sale = Sale(
    date: Date,           // DAT_CAD
    seller: string,       // VEN_NOME
    customer: string,     // CLI_RAZ
    tag: string,          // PED_OBS_INT, the channel tag
    status: string,       // PED_STATUS
    orderType: string,    // PED_TIPO
    total: real,          // PED_TOTAL
    code: Option<string>  // AL_COD, None for an empty cell
  )

  /** The `Tipo Venda` column: OPD, Distribuição, or Outros. */
  datatype Channel = Opd | Distribution | Other

  /** The tags every script reads as a distribution sale, misspelling included. */
  const DistributionTags: seq<string> := ["DISTRIBICAO", "DISTRIBUICAO", "DISTRIBUIÇÃO", "LOJA"]

  /** The OPD rule, the same in every script: tag OPD and status F (invoiced). */
  predicate IsOpdSale(s: Sale) {
    s.tag == "OPD" && s.status == "F"
  }

  function SellerOf(s: Sale): string {
    s.seller
  }

  function DayOf(s: Sale): Date {
    s.date
  }

  /** YYYYMMDD as a number: on valid dates it orders them as Python compares dates. */
  function DateKey(d: Date): int {
    d.year * 10000 + d.month * 100 + d.day
  }

  /** `df[mask]["PED_TOTAL"].sum()`. */
  function SumWhere(s: seq<Sale>, p: Sale -> bool): real {
    if s == [] then 0.0 else (if p(s[0]) then s[0].total else 0.0) + SumWhere(s[1..], p)
  }

  /** The `PED_TOTAL` sum over the rows a classification puts in channel `ch`. */
  function ChannelTotal(s: seq<Sale>, classify: Sale -> Channel, ch: Channel): real {
    if s == [] then 0.0 else (if classify(s[0]) == ch then s[0].total else 0.0) + ChannelTotal(s[1..], classify, ch)
  }

  lemma {:induction false} SumWhereAppend(a: seq<Sale>, b: seq<Sale>, p: Sale -> bool)
    ensures SumWhere(a + b, p) == SumWhere(a, p) + SumWhere(b, p)
  {
    if a != [] {
      assert (a + b)[1..] == a[1..] + b;
      SumWhereAppend(a[1..], b, p);
    } else {
      assert a + b == b;
    }
  }

  /** A sum over one mask equals the sum over another where the two agree on every row. */
  lemma {:induction false} SumWhereSame(s: seq<Sale>, p: Sale -> bool, q: Sale -> bool)
    requires forall i :: 0 <= i < |s| ==> p(s[i]) == q(s[i])
    ensures SumWhere(s, p) == SumWhere(s, q)
  {
    if s != [] {
      SumWhereSame(s[1..], p, q);
    }
  }

  /** The channel total is the masked sum with the channel test as the mask. */
  lemma {:induction false} ChannelTotalIsSumWhere(s: seq<Sale>, classify: Sale -> Channel, ch: Channel, p: Sale -> bool)
    requires forall i :: 0 <= i < |s| ==> p(s[i]) == (classify(s[i]) == ch)
    ensures ChannelTotal(s, classify, ch) == SumWhere(s, p)
  {
    if s != [] {
      ChannelTotalIsSumWhere(s[1..], classify, ch, p);
    }
  }
}
