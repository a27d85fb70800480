/**
 * The itemised breakdown card (src/components/CostBreakdown.tsx): an icon
 * and a bar colour chosen from each item's label, and bar widths relative to
 * the largest item.
 */
module CostBreakdownView {
  import opened Strings
  import opened CostTypes

  datatype Category =
    | StorageCategory
    | ComputeCategory
    | RequestCategory
    | TransferCategory
    | BackupCategory
    | OtherCategory

  /** One step of the priority list: a category and the keywords that select it. */
  datatype Rule = Rule(category: Category, keywords: seq<string>)

  /** The categories in the order the label is tested against them. */
  const CategoryRules: seq<Rule> := [
    Rule(StorageCategory, ["storage"]),
    Rule(ComputeCategory, ["compute"]),
    Rule(RequestCategory, ["request", "i/o"]),
    Rule(TransferCategory, ["transfer", "data"]),
    Rule(BackupCategory, ["backup"])
  ]

  /** Some keyword of the list occurs in `text`. */
  predicate IncludesAny(text: string, keywords: seq<string>)
  {
    keywords != [] && (Includes(text, keywords[0]) || IncludesAny(text, keywords[1..]))
  }

  /** The category of the first rule one of whose keywords occurs in `text`. */
  function ClassifyBy(rules: seq<Rule>, text: string): (c: Category)
    ensures c == OtherCategory || exists i :: 0 <= i < |rules| && c == rules[i].category
  {
    if rules == [] then OtherCategory
    else if IncludesAny(text, rules[0].keywords) then rules[0].category
    else ClassifyBy(rules[1..], text)
  }

  /** Rule `i` fires on `text`: one of its keywords occurs there. */
  predicate Fires(rules: seq<Rule>, text: string, i: int)
  {
    0 <= i < |rules| && IncludesAny(text, rules[i].keywords)
  }

  /** The priority-ordered, case-insensitive classification of a label. */
  function Classify(text: string): Category
  {
    ClassifyBy(CategoryRules, ToLower(text))
  }

  /** The icon shown for each category. */
  function CategoryIcon(c: Category): string
  {
    match c
    case StorageCategory => "\U{1F4BE}"
    case ComputeCategory => "\U{26A1}"
    case RequestCategory => "\U{1F504}"
    case TransferCategory => "\U{1F4E1}"
    case BackupCategory => "\U{1F512}"
    case OtherCategory => "\U{1F4CA}"
  }

  /** The bar gradient used for each category. */
  function CategoryColor(c: Category): string
  {
    match c
    case StorageCategory => "from-blue-500 to-blue-600"
    case ComputeCategory => "from-purple-500 to-purple-600"
    case RequestCategory => "from-green-500 to-green-600"
    case TransferCategory => "from-orange-500 to-orange-600"
    case BackupCategory => "from-red-500 to-red-600"
    case OtherCategory => "from-gray-500 to-gray-600"
  }

  function GetCategoryIcon(text: string): string
  {
    var lower := ToLower(text);
    if Includes(lower, "storage") then "\U{1F4BE}"
    else if Includes(lower, "compute") then "\U{26A1}"
    else if Includes(lower, "request") || Includes(lower, "i/o") then "\U{1F504}"
    else if Includes(lower, "transfer") || Includes(lower, "data") then "\U{1F4E1}"
    else if Includes(lower, "backup") then "\U{1F512}"
    else "\U{1F4CA}"
  }

  function GetCategoryColor(text: string): string
  {
    var lower := ToLower(text);
    if Includes(lower, "storage") then "from-blue-500 to-blue-600"
    else if Includes(lower, "compute") then "from-purple-500 to-purple-600"
    else if Includes(lower, "request") || Includes(lower, "i/o") then "from-green-500 to-green-600"
    else if Includes(lower, "transfer") || Includes(lower, "data") then "from-orange-500 to-orange-600"
    else if Includes(lower, "backup") then "from-red-500 to-red-600"
    else "from-gray-500 to-gray-600"
  }

  /** `Math.max(...costs, 1)`: the largest cost, but never below 1. */
  function MaxCost(items: seq<CostItem>): (m: real)
    ensures m >= 1.0
    ensures forall i :: 0 <= i < |items| ==> items[i].cost <= m
    ensures m == 1.0 || exists i :: 0 <= i < |items| && m == items[i].cost
  {
    if items == [] then
      1.0
    else
      var rest := MaxCost(items[1..]);
      assert forall i :: 1 <= i < |items| ==> items[i] == items[1..][i - 1];
      if items[0].cost > rest then items[0].cost else rest
  }

  /** The width of each item's bar, as a percentage of the largest item. */
  function BarPercentages(items: seq<CostItem>): (widths: seq<real>)
    ensures |widths| == |items|
    ensures forall i :: 0 <= i < |items| ==> widths[i] == (items[i].cost / MaxCost(items)) * 100.0
    ensures forall i :: 0 <= i < |items| ==> widths[i] <= 100.0
    ensures (forall i :: 0 <= i < |items| ==> items[i].cost >= 0.0) ==>
              forall i :: 0 <= i < |items| ==> 0.0 <= widths[i]
  {
    var maxCost := MaxCost(items);
    seq(|items|, i requires 0 <= i < |items| => Percentage(items[i].cost, maxCost))
  }

  // ---------------------------------------------------------------------
  // Properties
  // ---------------------------------------------------------------------

  lemma IncludesAnyOne(text: string, a: string)
    ensures IncludesAny(text, [a]) == Includes(text, a)
  {
    assert [a][1..] == [];
  }

  lemma IncludesAnyTwo(text: string, a: string, b: string)
    ensures IncludesAny(text, [a, b]) == (Includes(text, a) || Includes(text, b))
  {
    assert [a, b][1..] == [b];
    IncludesAnyOne(text, b);
  }

  /** The first rule to fire decides the category; when no rule fires the label falls to the default. */
  lemma {:induction false} ClassifyByFirstFiring(rules: seq<Rule>, text: string)
    ensures (forall i :: !Fires(rules, text, i)) ==> ClassifyBy(rules, text) == OtherCategory
    ensures forall i :: Fires(rules, text, i) && (forall j :: 0 <= j < i ==> !Fires(rules, text, j)) ==>
              ClassifyBy(rules, text) == rules[i].category
  {
    if rules != [] {
      var tail := rules[1..];
      ClassifyByFirstFiring(tail, text);
      forall k ensures Fires(tail, text, k) <==> (k >= 0 && Fires(rules, text, k + 1)) {
        if 0 <= k < |tail| {
          assert tail[k] == rules[k + 1];
        }
      }
      forall i | Fires(rules, text, i) && (forall j :: 0 <= j < i ==> !Fires(rules, text, j))
        ensures ClassifyBy(rules, text) == rules[i].category
      {
        if i > 0 {
          assert !Fires(rules, text, 0);
          assert Fires(tail, text, i - 1);
          assert forall j :: 0 <= j < i - 1 ==> !Fires(tail, text, j);
          assert tail[i - 1] == rules[i];
        }
      }
      if forall i :: !Fires(rules, text, i) {
        assert !Fires(rules, text, 0);
        assert forall k :: !Fires(tail, text, k);
      }
    }
  }

  /** Every category has its own icon and its own colour. */
  lemma CategoryIconsAndColorsDistinct(c1: Category, c2: Category)
    requires c1 != c2
    ensures CategoryIcon(c1) != CategoryIcon(c2)
    ensures CategoryColor(c1) != CategoryColor(c2)
  {
  }

  /** Walking the rule list is the same as testing the keywords one after another. */
  lemma ClassifyUnfolded(text: string)
    ensures var lower := ToLower(text);
            Classify(text)
            == if Includes(lower, "storage") then StorageCategory
               else if Includes(lower, "compute") then ComputeCategory
               else if Includes(lower, "request") || Includes(lower, "i/o") then RequestCategory
               else if Includes(lower, "transfer") || Includes(lower, "data") then TransferCategory
               else if Includes(lower, "backup") then BackupCategory
               else OtherCategory
  {
    var lower := ToLower(text);
    IncludesAnyOne(lower, "storage");
    IncludesAnyOne(lower, "compute");
    IncludesAnyTwo(lower, "request", "i/o");
    IncludesAnyTwo(lower, "transfer", "data");
    IncludesAnyOne(lower, "backup");
    var r1 := CategoryRules[1..];
    var r2 := r1[1..];
    var r3 := r2[1..];
    var r4 := r3[1..];
    assert r1 == [Rule(ComputeCategory, ["compute"]), Rule(RequestCategory, ["request", "i/o"]),
                  Rule(TransferCategory, ["transfer", "data"]), Rule(BackupCategory, ["backup"])];
    assert r2 == [Rule(RequestCategory, ["request", "i/o"]), Rule(TransferCategory, ["transfer", "data"]),
                  Rule(BackupCategory, ["backup"])];
    assert r3 == [Rule(TransferCategory, ["transfer", "data"]), Rule(BackupCategory, ["backup"])];
    assert r4 == [Rule(BackupCategory, ["backup"])];
    assert r4[1..] == [];
    assert ClassifyBy(r4, lower) == if Includes(lower, "backup") then BackupCategory else OtherCategory;
    assert ClassifyBy(r3, lower) == if Includes(lower, "transfer") || Includes(lower, "data") then TransferCategory
                                    else ClassifyBy(r4, lower);
    assert ClassifyBy(r2, lower) == if Includes(lower, "request") || Includes(lower, "i/o") then RequestCategory
                                    else ClassifyBy(r3, lower);
    assert ClassifyBy(r1, lower) == if Includes(lower, "compute") then ComputeCategory else ClassifyBy(r2, lower);
  }

  /** The icon and the colour both follow the same priority-ordered classification. */
  lemma IconAndColorFollowClassification(text: string)
    ensures GetCategoryIcon(text) == CategoryIcon(Classify(text))
    ensures GetCategoryColor(text) == CategoryColor(Classify(text))
  {
    ClassifyUnfolded(text);
  }

  lemma LowerBackupStorage()
    ensures ToLower("Backup Storage") == "backup storage"
  {
    var s := "Backup Storage";
    var r := ToLower(s);
    assert r[0] == LowerChar('B') == 'b';
    assert r[7] == LowerChar('S') == 's';
    forall i | 0 <= i < 14 && i != 0 && i != 7 ensures r[i] == s[i] {
      assert !IsUpper(s[i]);
    }
  }

  /** "Backup Storage" is a storage item: "storage" is tested before "backup". */
  lemma BackupStorageIsStorage()
    ensures Classify("Backup Storage") == StorageCategory
    ensures GetCategoryIcon("Backup Storage") == CategoryIcon(StorageCategory)
  {
    LowerBackupStorage();
    var lower := ToLower("Backup Storage");
    assert lower[7..14] == "storage";
    assert OccursAt(lower, "storage", 7);
    IncludesIffOccurs(lower, "storage");
    ClassifyUnfolded("Backup Storage");
    IconAndColorFollowClassification("Backup Storage");
  }

  /** A label is a backup item only when no earlier keyword occurs in it. */
  lemma BackupOnlyWithoutEarlierKeywords(text: string)
    requires Classify(text) == BackupCategory
    ensures var lower := ToLower(text);
            && !Includes(lower, "storage") && !Includes(lower, "compute")
            && !Includes(lower, "request") && !Includes(lower, "i/o")
            && !Includes(lower, "transfer") && !Includes(lower, "data")
            && Includes(lower, "backup")
  {
    IconAndColorFollowClassification(text);
  }

  /** Matching ignores case: upper-casing a label changes neither its icon nor its colour. */
  lemma ClassificationIgnoresCase(text: string)
    ensures Classify(ToUpper(text)) == Classify(text)
    ensures GetCategoryIcon(ToUpper(text)) == GetCategoryIcon(text)
    ensures GetCategoryColor(ToUpper(text)) == GetCategoryColor(text)
  {
    ToLowerIgnoresUpper(text);
  }
}
