/** The experience table and the level it gives (src/lib/util.ts, convertXPtoLVL). */
module Levels {

  const LEVEL_99_XP := 13_034_431

  // ---------- The table ----------

  /** The sum of the first n increments, where increment(k) is Math.floor(k + 300 * Math.pow(2, k / 7)). */
  function Points(increment: nat -> nat, n: nat): nat
    decreases increment, n
  {
    if n == 0 then 0 else Points(increment, n - 1) + increment(n)
  }

  lemma {:induction false} PointsGrow(increment: nat -> nat, m: nat, n: nat)
    requires m <= n
    ensures Points(increment, m) <= Points(increment, n)
    decreases n
  {
    if m < n {
      PointsGrow(increment, m, n - 1);
    }
  }

  /** The experience a level takes. */
  function Threshold(increment: nat -> nat, lvl: nat): nat
    requires lvl >= 1
  {
    Points(increment, lvl - 1) / 4
  }

  // ---------- The level ----------

  /** A level within the cap that is at least the goal exactly when the table's threshold for the goal is reached. */
  ghost predicate IsLevel(increment: nat -> nat, xp: int, cap: nat, lvl: nat) {
    && (cap > 0 ==> 1 <= lvl)
    && lvl <= cap
    && forall goal :: 2 <= goal <= cap ==> (lvl >= goal <==> xp >= Threshold(increment, goal))
  }

  method ConvertXPtoLVL(increment: nat -> nat, xp: int, cap: nat) returns (lvl: nat)
    ensures IsLevel(increment, xp, cap, lvl)
  {
    var points := 0;
    lvl := 1;
    while lvl <= cap
      invariant 1 <= lvl <= cap + 1
      invariant points == Points(increment, lvl - 1)
      invariant forall goal :: 2 <= goal <= lvl ==> Threshold(increment, goal) <= xp
    {
      points := points + increment(lvl);
      if points / 4 >= xp + 1 {
        forall goal | lvl < goal <= cap ensures xp < Threshold(increment, goal)
        {
          PointsGrow(increment, lvl, goal - 1);
        }
        return;
      }
      lvl := lvl + 1;
    }
    return cap;
  }

  /** There is just one such level, and it grows with the experience and with the cap. */
  lemma LevelsGrow(increment: nat -> nat, xp: int, cap: nat, lvl: nat, xp2: int, cap2: nat, lvl2: nat)
    requires IsLevel(increment, xp, cap, lvl) && IsLevel(increment, xp2, cap2, lvl2)
    requires xp <= xp2 && cap <= cap2
    ensures lvl <= lvl2
    ensures xp == xp2 && cap == cap2 ==> lvl == lvl2
  {
    assert lvl >= 2 ==> xp >= Threshold(increment, lvl);
    assert lvl2 >= 2 ==> xp2 >= Threshold(increment, lvl2);
  }

  // ---------- Level 99 ----------

  function Pow7(x: nat): nat {
    x * x * x * x * x * x * x
  }

  lemma MulLess(a: nat, b: nat, c: nat, d: nat)
    requires a <= b && c <= d
    ensures a * c <= b * d
  {
    assert a * c <= b * c <= b * d;
  }

  lemma PowGrows(a: nat, b: nat)
    requires a <= b
    ensures Pow7(a) <= Pow7(b)
  {
    MulLess(a, b, a, b);
    MulLess(a * a, b * b, a, b);
    MulLess(a * a * a, b * b * b, a, b);
    MulLess(a * a * a * a, b * b * b * b, a, b);
    MulLess(a * a * a * a * a, b * b * b * b * b, a, b);
    MulLess(a * a * a * a * a * a, b * b * b * b * b * b, a, b);
  }

  /** r is the integer part of the seventh root of n. */
  predicate IsRoot(n: nat, r: nat) {
    Pow7(r) <= n < Pow7(r + 1)
  }

  lemma RootIsUnique(n: nat, r: nat, s: nat)
    requires IsRoot(n, r) && IsRoot(n, s)
    ensures r == s
  {
    if s < r {
      PowGrows(s + 1, r);
    } else if r < s {
      PowGrows(r + 1, s);
    }
  }

  /** 300^7 * 2^k. */
  function Scale(k: nat): nat {
    if k == 0 then 218_700_000_000_000_000 else 2 * Scale(k - 1)
  }

  /** The increment of level k is k and the integer part of 300 * 2^(k/7), the seventh root of 300^7 * 2^k. */
  ghost predicate Exact(increment: nat -> nat, k: nat) {
    increment(k) >= k && IsRoot(Scale(k), increment(k) - k)
  }

  ghost predicate ExactTable(increment: nat -> nat) {
    forall k :: Exact(increment, k)
  }

  lemma PowRises(a: nat)
    ensures Pow7(a) < Pow7(a + 1)
  {
    var b := a + 1;
    MulLess(a, b, a, b);
    MulLess(a * a, b * b, a, b);
    MulLess(a * a * a, b * b * b, a, b);
    MulLess(a * a * a * a, b * b * b * b, a, b);
    MulLess(a * a * a * a * a, b * b * b * b * b, a, b);
    var six := b * b * b * b * b * b;
    MulLess(a * a * a * a * a * a, six, a, a);
    assert six > 0;
    assert six * b == six * a + six;
  }

  lemma {:induction false} RootExists(n: nat)
    ensures exists r: nat :: IsRoot(n, r)
  {
    if n == 0 {
      assert IsRoot(0, 0);
    } else {
      RootExists(n - 1);
      var r: nat :| IsRoot(n - 1, r);
      PowRises(r + 1);
      assert IsRoot(n, if Pow7(r + 1) <= n then r + 1 else r);
    }
  }

  ghost function Root7(n: nat): (r: nat)
    ensures IsRoot(n, r)
  {
    RootExists(n);
    var r: nat :| IsRoot(n, r);
    r
  }

  /** There is an exact table, and only one. */
  lemma ExactTableExists()
    ensures exists increment: nat -> nat :: ExactTable(increment)
    ensures forall a: nat -> nat, b: nat -> nat, k: nat :: ExactTable(a) && ExactTable(b) ==> a(k) == b(k)
  {
    var table := (k: nat) => k + Root7(Scale(k));
    forall k: nat ensures Exact(table, k)
    {
      assert IsRoot(Scale(k), table(k) - k);
    }
    assert ExactTable(table);
    forall a: nat -> nat, b: nat -> nat, k: nat | ExactTable(a) && ExactTable(b) ensures a(k) == b(k)
    {
      assert Exact(a, k) && Exact(b, k);
      RootIsUnique(Scale(k), a(k) - k, b(k) - k);
    }
  }

  /** The table's total and scale after k rows. */
  ghost predicate Row(increment: nat -> nat, k: nat, points: nat, scale: nat) {
    Points(increment, k) == points && Scale(k) == scale
  }

  lemma NextRow(increment: nat -> nat, k: nat, points: nat, scale: nat, r: nat)
    requires ExactTable(increment) && Row(increment, k, points, scale)
    requires r * r * r * r * r * r * r <= 2 * scale
    requires 2 * scale < (r + 1) * (r + 1) * (r + 1) * (r + 1) * (r + 1) * (r + 1) * (r + 1)
    ensures Row(increment, k + 1, points + k + 1 + r, 2 * scale)
  {
    assert Exact(increment, k + 1);
    RootIsUnique(2 * scale, r, increment(k + 1) - (k + 1));
  }

  lemma RowsTo7(increment: nat -> nat)
    requires ExactTable(increment)
    ensures Row(increment, 7, 3207, 27993600000000000000)
  {
    NextRow(increment, 0, 0, 218700000000000000, 331);
    NextRow(increment, 1, 332, 437400000000000000, 365);
    NextRow(increment, 2, 699, 874800000000000000, 403);
    NextRow(increment, 3, 1105, 1749600000000000000, 445);
    NextRow(increment, 4, 1554, 3499200000000000000, 492);
    NextRow(increment, 5, 2051, 6998400000000000000, 543);
    NextRow(increment, 6, 2600, 13996800000000000000, 600);
  }

  lemma RowsTo14(increment: nat -> nat)
    requires ExactTable(increment)
    ensures Row(increment, 14, 9645, 3583180800000000000000)
  {
    RowsTo7(increment);
    NextRow(increment, 7, 3207, 27993600000000000000, 662);
    NextRow(increment, 8, 3877, 55987200000000000000, 731);
    NextRow(increment, 9, 4617, 111974400000000000000, 807);
    NextRow(increment, 10, 5434, 223948800000000000000, 891);
    NextRow(increment, 11, 6336, 447897600000000000000, 984);
    NextRow(increment, 12, 7332, 895795200000000000000, 1086);
    NextRow(increment, 13, 8431, 1791590400000000000000, 1200);
  }

  lemma RowsTo21(increment: nat -> nat)
    requires ExactTable(increment)
    ensures Row(increment, 21, 22496, 458647142400000000000000)
  {
    RowsTo14(increment);
    NextRow(increment, 14, 9645, 3583180800000000000000, 1324);
    NextRow(increment, 15, 10984, 7166361600000000000000, 1462);
    NextRow(increment, 16, 12462, 14332723200000000000000, 1615);
    NextRow(increment, 17, 14094, 28665446400000000000000, 1783);
    NextRow(increment, 18, 15895, 57330892800000000000000, 1968);
    NextRow(increment, 19, 17882, 114661785600000000000000, 2173);
    NextRow(increment, 20, 20075, 229323571200000000000000, 2400);
  }

  lemma RowsTo28(increment: nat -> nat)
    requires ExactTable(increment)
    ensures Row(increment, 28, 48125, 58706834227200000000000000)
  {
    RowsTo21(increment);
    NextRow(increment, 21, 22496, 458647142400000000000000, 2649);
    NextRow(increment, 22, 25167, 917294284800000000000000, 2925);
    NextRow(increment, 23, 28115, 1834588569600000000000000, 3230);
    NextRow(increment, 24, 31369, 3669177139200000000000000, 3566);
    NextRow(increment, 25, 34960, 7338354278400000000000000, 3937);
    NextRow(increment, 26, 38923, 14676708556800000000000000, 4347);
    NextRow(increment, 27, 43297, 29353417113600000000000000, 4800);
  }

  lemma RowsTo35(increment: nat -> nat)
    requires ExactTable(increment)
    ensures Row(increment, 35, 99260, 7514474781081600000000000000)
  {
    RowsTo28(increment);
    NextRow(increment, 28, 48125, 58706834227200000000000000, 5299);
    NextRow(increment, 29, 53453, 117413668454400000000000000, 5851);
    NextRow(increment, 30, 59334, 234827336908800000000000000, 6460);
    NextRow(increment, 31, 65825, 469654673817600000000000000, 7132);
    NextRow(increment, 32, 72989, 939309347635200000000000000, 7875);
    NextRow(increment, 33, 80897, 1878618695270400000000000000, 8694);
    NextRow(increment, 34, 89625, 3757237390540800000000000000, 9600);
  }

  lemma RowsTo42(increment: nat -> nat)
    requires ExactTable(increment)
    ensures Row(increment, 42, 201358, 961852771978444800000000000000)
  {
    RowsTo35(increment);
    NextRow(increment, 35, 99260, 7514474781081600000000000000, 10599);
    NextRow(increment, 36, 109895, 15028949562163200000000000000, 11702);
    NextRow(increment, 37, 121634, 30057899124326400000000000000, 12920);
    NextRow(increment, 38, 134592, 60115798248652800000000000000, 14265);
    NextRow(increment, 39, 148896, 120231596497305600000000000000, 15750);
    NextRow(increment, 40, 164686, 240463192994611200000000000000, 17389);
    NextRow(increment, 41, 182116, 480926385989222400000000000000, 19200);
  }

  lemma RowsTo49(increment: nat -> nat)
    requires ExactTable(increment)
    ensures Row(increment, 49, 405334, 123117154813240934400000000000000)
  {
    RowsTo42(increment);
    NextRow(increment, 42, 201358, 961852771978444800000000000000, 21198);
    NextRow(increment, 43, 222599, 1923705543956889600000000000000, 23405);
    NextRow(increment, 44, 246048, 3847411087913779200000000000000, 25841);
    NextRow(increment, 45, 271934, 7694822175827558400000000000000, 28531);
    NextRow(increment, 46, 300511, 15389644351655116800000000000000, 31500);
    NextRow(increment, 47, 332058, 30779288703310233600000000000000, 34779);
    NextRow(increment, 48, 366885, 61558577406620467200000000000000, 38400);
  }

  lemma RowsTo56(increment: nat -> nat)
    requires ExactTable(increment)
    ensures Row(increment, 56, 813016, 15758995816094839603200000000000000)
  {
    RowsTo49(increment);
    NextRow(increment, 49, 405334, 123117154813240934400000000000000, 42397);
    NextRow(increment, 50, 447781, 246234309626481868800000000000000, 46810);
    NextRow(increment, 51, 494642, 492468619252963737600000000000000, 51682);
    NextRow(increment, 52, 546376, 984937238505927475200000000000000, 57062);
    NextRow(increment, 53, 603491, 1969874477011854950400000000000000, 63001);
    NextRow(increment, 54, 666546, 3939748954023709900800000000000000, 69559);
    NextRow(increment, 55, 736160, 7879497908047419801600000000000000, 76800);
  }

  lemma RowsTo63(increment: nat -> nat)
    requires ExactTable(increment)
    ensures Row(increment, 63, 1628061, 2017151464460139469209600000000000000)
  {
    RowsTo56(increment);
    NextRow(increment, 56, 813016, 15758995816094839603200000000000000, 84794);
    NextRow(increment, 57, 897867, 31517991632189679206400000000000000, 93620);
    NextRow(increment, 58, 991545, 63035983264379358412800000000000000, 103365);
    NextRow(increment, 59, 1094969, 126071966528758716825600000000000000, 114124);
    NextRow(increment, 60, 1209153, 252143933057517433651200000000000000, 126003);
    NextRow(increment, 61, 1335217, 504287866115034867302400000000000000, 139119);
    NextRow(increment, 62, 1474398, 1008575732230069734604800000000000000, 153600);
  }

  lemma RowsTo70(increment: nat -> nat)
    requires ExactTable(increment)
    ensures Row(increment, 70, 3257781, 258195387450897852058828800000000000000)
  {
    RowsTo63(increment);
    NextRow(increment, 63, 1628061, 2017151464460139469209600000000000000, 169588);
    NextRow(increment, 64, 1797713, 4034302928920278938419200000000000000, 187240);
    NextRow(increment, 65, 1985018, 8068605857840557876838400000000000000, 206730);
    NextRow(increment, 66, 2191814, 16137211715681115753676800000000000000, 228248);
    NextRow(increment, 67, 2420129, 32274423431362231507353600000000000000, 252007);
    NextRow(increment, 68, 2672204, 64548846862724463014707200000000000000, 278238);
    NextRow(increment, 69, 2950511, 129097693725448926029414400000000000000, 307200);
  }

  lemma RowsTo77(increment: nat -> nat)
    requires ExactTable(increment)
    ensures Row(increment, 77, 6516802, 33049009593714925063530086400000000000000)
  {
    RowsTo70(increment);
    NextRow(increment, 70, 3257781, 258195387450897852058828800000000000000, 339176);
    NextRow(increment, 71, 3597028, 516390774901795704117657600000000000000, 374480);
    NextRow(increment, 72, 3971580, 1032781549803591408235315200000000000000, 413460);
    NextRow(increment, 73, 4385113, 2065563099607182816470630400000000000000, 456497);
    NextRow(increment, 74, 4841684, 4131126199214365632941260800000000000000, 504014);
    NextRow(increment, 75, 5345773, 8262252398428731265882521600000000000000, 556476);
    NextRow(increment, 76, 5902325, 16524504796857462531765043200000000000000, 614400);
  }

  lemma RowsTo84(increment: nat -> nat)
    requires ExactTable(increment)
    ensures Row(increment, 84, 13034378, 4230273227995510408131851059200000000000000)
  {
    RowsTo77(increment);
    NextRow(increment, 77, 6516802, 33049009593714925063530086400000000000000, 678352);
    NextRow(increment, 78, 7195232, 66098019187429850127060172800000000000000, 748961);
    NextRow(increment, 79, 7944272, 132196038374859700254120345600000000000000, 826921);
    NextRow(increment, 80, 8771273, 264392076749719400508240691200000000000000, 912994);
    NextRow(increment, 81, 9684348, 528784153499438801016481382400000000000000, 1008028);
    NextRow(increment, 82, 10692458, 1057568306998877602032962764800000000000000, 1112953);
    NextRow(increment, 83, 11805494, 2115136613997755204065925529600000000000000, 1228800);
  }

  lemma RowsTo91(increment: nat -> nat)
    requires ExactTable(increment)
    ensures Row(increment, 91, 26069015, 541474973183425332240876935577600000000000000)
  {
    RowsTo84(increment);
    NextRow(increment, 84, 13034378, 4230273227995510408131851059200000000000000, 1356705);
    NextRow(increment, 85, 14391168, 8460546455991020816263702118400000000000000, 1497923);
    NextRow(increment, 86, 15889177, 16921092911982041632527404236800000000000000, 1653842);
    NextRow(increment, 87, 17543106, 33842185823964083265054808473600000000000000, 1825989);
    NextRow(increment, 88, 19369183, 67684371647928166530109616947200000000000000, 2016056);
    NextRow(increment, 89, 21385328, 135368743295856333060219233894400000000000000, 2225906);
    NextRow(increment, 90, 23611324, 270737486591712666120438467788800000000000000, 2457600);
  }

  lemma RowsTo98(increment: nat -> nat)
    requires ExactTable(increment)
    ensures Row(increment, 98, 52137724, 69308796567478442526832247753932800000000000000)
  {
    RowsTo91(increment);
    NextRow(increment, 91, 26069015, 541474973183425332240876935577600000000000000, 2713410);
    NextRow(increment, 92, 28782517, 1082949946366850664481753871155200000000000000, 2995847);
    NextRow(increment, 93, 31778457, 2165899892733701328963507742310400000000000000, 3307684);
    NextRow(increment, 94, 35086235, 4331799785467402657927015484620800000000000000, 3651979);
    NextRow(increment, 95, 38738309, 8663599570934805315854030969241600000000000000, 4032112);
    NextRow(increment, 96, 42770517, 17327199141869610631708061938483200000000000000, 4451812);
    NextRow(increment, 97, 47222426, 34654398283739221263416123876966400000000000000, 4915200);
  }

  /** The constant level-99 notices are counted by is the exact table's own threshold. */
  lemma Level99Threshold(increment: nat -> nat, xp: int, cap: nat, lvl: nat)
    requires ExactTable(increment) && IsLevel(increment, xp, cap, lvl) && cap >= 99
    ensures lvl >= 99 <==> xp >= LEVEL_99_XP
  {
    RowsTo98(increment);
    assert Threshold(increment, 99) == LEVEL_99_XP;
  }
}
