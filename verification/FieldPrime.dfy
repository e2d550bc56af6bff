/**
  2^255 - 19 is prime: a chain of primes, each with an element whose order is the product of one or two of those
  before it. Every line of a power lemma takes in one more bit of the exponent.
 */
module FieldPrime {
  import opened Modular
  import opened Primality
  import opened FieldLimbs

  const R1: int := 74058212732561358302231226437062788676166966415465897661863160754340907
  const R2: int := 75445702479781427272750846543864801
  const R3: int := 1919519569386763
  const R4: int := 8574133

  lemma P7Prime()
    ensures Prime(7)
  {
    PrimeByTrial(7, 3);
  }

  lemma P127Prime()
    ensures Prime(127)
  {
    assert Undivided(127, 7, 12);
    PrimeByTrial(127, 12);
  }

  lemma P353Prime()
    ensures Prime(353)
  {
    assert Undivided(353, 14, 19);
    assert Undivided(353, 8, 19);
    PrimeByTrial(353, 19);
  }

  lemma P991Prime()
    ensures Prime(991)
  {
    assert Undivided(991, 27, 32);
    assert Undivided(991, 21, 32);
    assert Undivided(991, 15, 32);
    assert Undivided(991, 9, 32);
    assert Undivided(991, 3, 32);
    PrimeByTrial(991, 32);
  }

  lemma P75707From133()
    ensures Undivided(75707, 133, 276)
  {
    assert Undivided(75707, 271, 276);
    assert Undivided(75707, 265, 276);
    assert Undivided(75707, 259, 276);
    assert Undivided(75707, 253, 276);
    assert Undivided(75707, 247, 276);
    assert Undivided(75707, 241, 276);
    assert Undivided(75707, 235, 276);
    assert Undivided(75707, 229, 276);
    assert Undivided(75707, 223, 276);
    assert Undivided(75707, 217, 276);
    assert Undivided(75707, 211, 276);
    assert Undivided(75707, 205, 276);
    assert Undivided(75707, 199, 276);
    assert Undivided(75707, 193, 276);
    assert Undivided(75707, 187, 276);
    assert Undivided(75707, 181, 276);
    assert Undivided(75707, 175, 276);
    assert Undivided(75707, 169, 276);
    assert Undivided(75707, 163, 276);
    assert Undivided(75707, 157, 276);
    assert Undivided(75707, 151, 276);
    assert Undivided(75707, 145, 276);
    assert Undivided(75707, 139, 276);
    assert Undivided(75707, 133, 276);
  }

  lemma P75707Prime()
    ensures Prime(75707)
  {
    P75707From133();
    assert Undivided(75707, 127, 276);
    assert Undivided(75707, 121, 276);
    assert Undivided(75707, 115, 276);
    assert Undivided(75707, 109, 276);
    assert Undivided(75707, 103, 276);
    assert Undivided(75707, 97, 276);
    assert Undivided(75707, 91, 276);
    assert Undivided(75707, 85, 276);
    assert Undivided(75707, 79, 276);
    assert Undivided(75707, 73, 276);
    assert Undivided(75707, 67, 276);
    assert Undivided(75707, 61, 276);
    assert Undivided(75707, 55, 276);
    assert Undivided(75707, 49, 276);
    assert Undivided(75707, 43, 276);
    assert Undivided(75707, 37, 276);
    assert Undivided(75707, 31, 276);
    assert Undivided(75707, 25, 276);
    assert Undivided(75707, 19, 276);
    assert Undivided(75707, 13, 276);
    assert Undivided(75707, 7, 276);
    PrimeByTrial(75707, 276);
  }

  lemma R4First(b: int, n: nat, m: int)
    requires b == 5247056 && n == 7 && m == 8574133
    ensures IsPower(b, n, m, 3435729)
  {
    hide IsPower;
    ZeroPower(5247056, 8574133);
    SquareTimes(5247056, 0, 8574133, 1, 5247056);
    SquareTimes(5247056, 1, 8574133, 5247056, 7087782);
    SquareTimes(5247056, 3, 8574133, 7087782, 3435729);
  }

  lemma R4Second(b: int, n: nat, m: int)
    requires b == 5247056 && n == 991 && m == 8574133
    ensures IsPower(b, n, m, 7470406)
  {
    hide IsPower;
    ZeroPower(5247056, 8574133);
    SquareTimes(5247056, 0, 8574133, 1, 5247056);
    SquareTimes(5247056, 1, 8574133, 5247056, 7087782);
    SquareTimes(5247056, 3, 8574133, 7087782, 3435729);
    SquareTimes(5247056, 7, 8574133, 3435729, 6400999);
    Square(5247056, 15, 8574133, 6400999, 7537551);
    SquareTimes(5247056, 30, 8574133, 7537551, 5235096);
    SquareTimes(5247056, 61, 8574133, 5235096, 4898);
    SquareTimes(5247056, 123, 8574133, 4898, 3144374);
    SquareTimes(5247056, 247, 8574133, 3144374, 5553288);
    SquareTimes(5247056, 495, 8574133, 5553288, 7470406);
  }

  lemma R4Order(b: int, n: nat, m: int)
    requires b == 7470406 && n == 7 && m == 8574133
    ensures IsPower(b, n, m, 1)
  {
    hide IsPower;
    ZeroPower(7470406, 8574133);
    SquareTimes(7470406, 0, 8574133, 1, 7470406);
    SquareTimes(7470406, 1, 8574133, 7470406, 3751096);
    SquareTimes(7470406, 3, 8574133, 3751096, 1);
  }

  lemma R4Prime()
    ensures Prime(R4)
  {
    hide IsPower, Prime;
    R4First(5247056, 7, 8574133);
    R4Second(5247056, 991, 8574133);
    R4Order(7470406, 7, 8574133);
    P7Prime();
    P991Prime();
    PrimeByTwo(8574133, 7, 991, 5247056, 3435729, 1014251, 406419, 7470406, 207671, 180938);
  }

  lemma R3First(b: int, n: nat, m: int)
    requires b == 354538099852037 && n == 127 && m == 1919519569386763
    ensures IsPower(b, n, m, 1059928654987441)
  {
    hide IsPower;
    ZeroPower(354538099852037, 1919519569386763);
    SquareTimes(354538099852037, 0, 1919519569386763, 1, 354538099852037);
    SquareTimes(354538099852037, 1, 1919519569386763, 354538099852037, 394952769698868);
    SquareTimes(354538099852037, 3, 1919519569386763, 394952769698868, 1897791769521854);
    SquareTimes(354538099852037, 7, 1919519569386763, 1897791769521854, 408748103863745);
    SquareTimes(354538099852037, 15, 1919519569386763, 408748103863745, 1111174628372789);
    SquareTimes(354538099852037, 31, 1919519569386763, 1111174628372789, 1742197895816436);
    SquareTimes(354538099852037, 63, 1919519569386763, 1742197895816436, 1059928654987441);
  }

  lemma R3SecondPart1(b: int, n: nat, m: int)
    requires b == 354538099852037 && n == 535883 && m == 1919519569386763
    ensures IsPower(b, n, m, 15481152033820)
  {
    hide IsPower;
    ZeroPower(354538099852037, 1919519569386763);
    SquareTimes(354538099852037, 0, 1919519569386763, 1, 354538099852037);
    Square(354538099852037, 1, 1919519569386763, 354538099852037, 832250889688402);
    Square(354538099852037, 2, 1919519569386763, 832250889688402, 584493238178054);
    Square(354538099852037, 4, 1919519569386763, 584493238178054, 571985354164645);
    Square(354538099852037, 8, 1919519569386763, 571985354164645, 1444112759561103);
    Square(354538099852037, 16, 1919519569386763, 1444112759561103, 1581455946706011);
    SquareTimes(354538099852037, 32, 1919519569386763, 1581455946706011, 889934097584452);
    Square(354538099852037, 65, 1919519569386763, 889934097584452, 11679562663237);
    SquareTimes(354538099852037, 130, 1919519569386763, 11679562663237, 445904429394354);
    SquareTimes(354538099852037, 261, 1919519569386763, 445904429394354, 1272112763336854);
    Square(354538099852037, 523, 1919519569386763, 1272112763336854, 57765243444407);
    SquareTimes(354538099852037, 1046, 1919519569386763, 57765243444407, 1040861767340058);
    Square(354538099852037, 2093, 1919519569386763, 1040861767340058, 248279946781505);
    SquareTimes(354538099852037, 4186, 1919519569386763, 248279946781505, 361656944149934);
    Square(354538099852037, 8373, 1919519569386763, 361656944149934, 1697752144365143);
    Square(354538099852037, 16746, 1919519569386763, 1697752144365143, 1320232554822415);
    SquareTimes(354538099852037, 33492, 1919519569386763, 1320232554822415, 424432282866970);
    Square(354538099852037, 66985, 1919519569386763, 424432282866970, 340682015357959);
    SquareTimes(354538099852037, 133970, 1919519569386763, 340682015357959, 193120948018747);
    SquareTimes(354538099852037, 267941, 1919519569386763, 193120948018747, 15481152033820);
  }

  lemma R3Second(b: int, n: nat, m: int)
    requires b == 354538099852037 && n == 8574133 && m == 1919519569386763
    ensures IsPower(b, n, m, 576774792492622)
  {
    hide IsPower;
    R3SecondPart1(354538099852037, 535883, 1919519569386763);
    Square(354538099852037, 535883, 1919519569386763, 15481152033820, 376785174327253);
    SquareTimes(354538099852037, 1071766, 1919519569386763, 376785174327253, 356568042515195);
    Square(354538099852037, 2143533, 1919519569386763, 356568042515195, 652744371211363);
    SquareTimes(354538099852037, 4287066, 1919519569386763, 652744371211363, 576774792492622);
  }

  lemma R3Order(b: int, n: nat, m: int)
    requires b == 576774792492622 && n == 127 && m == 1919519569386763
    ensures IsPower(b, n, m, 1)
  {
    hide IsPower;
    ZeroPower(576774792492622, 1919519569386763);
    SquareTimes(576774792492622, 0, 1919519569386763, 1, 576774792492622);
    SquareTimes(576774792492622, 1, 1919519569386763, 576774792492622, 1357890764181271);
    SquareTimes(576774792492622, 3, 1919519569386763, 1357890764181271, 759458092768680);
    SquareTimes(576774792492622, 7, 1919519569386763, 759458092768680, 78454425872112);
    SquareTimes(576774792492622, 15, 1919519569386763, 78454425872112, 1320549840644032);
    SquareTimes(576774792492622, 31, 1919519569386763, 1320549840644032, 1693956375729866);
    SquareTimes(576774792492622, 63, 1919519569386763, 1693956375729866, 1);
  }

  lemma R3Prime()
    ensures Prime(R3)
  {
    hide IsPower, Prime;
    R3First(354538099852037, 127, 1919519569386763);
    R3Second(354538099852037, 8574133, 1919519569386763);
    R3Order(576774792492622, 127, 1919519569386763);
    P127Prime();
    R4Prime();
    PrimeByTwo(1919519569386763, 127, 8574133, 354538099852037, 1059928654987441, 1290547218147893, 712619969572013,
      576774792492622, 1870148777187772, 561939919808897);
  }

  lemma R2First(b: int, n: nat, m: int)
    requires b == 66628784550627212900504873757094751 && n == 75707 && m == 75445702479781427272750846543864801
    ensures IsPower(b, n, m, 56747016255153332959347766392083459)
  {
    hide IsPower;
    ZeroPower(66628784550627212900504873757094751, 75445702479781427272750846543864801);
    SquareTimes(66628784550627212900504873757094751, 0, 75445702479781427272750846543864801, 1,
      66628784550627212900504873757094751);
    Square(66628784550627212900504873757094751, 1, 75445702479781427272750846543864801,
      66628784550627212900504873757094751, 60973631106531813743421451017572206);
    Square(66628784550627212900504873757094751, 2, 75445702479781427272750846543864801,
      60973631106531813743421451017572206, 39607168091454777770804222563258512);
    SquareTimes(66628784550627212900504873757094751, 4, 75445702479781427272750846543864801,
      39607168091454777770804222563258512, 50843870540617124712555148515184834);
    Square(66628784550627212900504873757094751, 9, 75445702479781427272750846543864801,
      50843870540617124712555148515184834, 64597264808622180594641885021819868);
    Square(66628784550627212900504873757094751, 18, 75445702479781427272750846543864801,
      64597264808622180594641885021819868, 50106339438264755936439796620263798);
    SquareTimes(66628784550627212900504873757094751, 36, 75445702479781427272750846543864801,
      50106339438264755936439796620263798, 52884110093195122422113101375949398);
    SquareTimes(66628784550627212900504873757094751, 73, 75445702479781427272750846543864801,
      52884110093195122422113101375949398, 13427640974044182161962747618570624);
    SquareTimes(66628784550627212900504873757094751, 147, 75445702479781427272750846543864801,
      13427640974044182161962747618570624, 18040216959682981514531834359797380);
    SquareTimes(66628784550627212900504873757094751, 295, 75445702479781427272750846543864801,
      18040216959682981514531834359797380, 42377223134056996222579939403698571);
    Square(66628784550627212900504873757094751, 591, 75445702479781427272750846543864801,
      42377223134056996222579939403698571, 24081685570597280423252386097499872);
    SquareTimes(66628784550627212900504873757094751, 1182, 75445702479781427272750846543864801,
      24081685570597280423252386097499872, 45447008564120962948550074386230369);
    SquareTimes(66628784550627212900504873757094751, 2365, 75445702479781427272750846543864801,
      45447008564120962948550074386230369, 59214428378215496415693211056671596);
    SquareTimes(66628784550627212900504873757094751, 4731, 75445702479781427272750846543864801,
      59214428378215496415693211056671596, 22213263291537986980793735220654607);
    Square(66628784550627212900504873757094751, 9463, 75445702479781427272750846543864801,
      22213263291537986980793735220654607, 19361349691339019220359976951438386);
    SquareTimes(66628784550627212900504873757094751, 18926, 75445702479781427272750846543864801,
      19361349691339019220359976951438386, 6768562213048916914812057029298395);
    SquareTimes(66628784550627212900504873757094751, 37853, 75445702479781427272750846543864801,
      6768562213048916914812057029298395, 56747016255153332959347766392083459);
  }

  lemma R2SecondPart1(b: int, n: nat, m: int)
    requires b == 66628784550627212900504873757094751 && n == 893845 && m == 75445702479781427272750846543864801
    ensures IsPower(b, n, m, 66357501344179587652335920020936496)
  {
    hide IsPower;
    ZeroPower(66628784550627212900504873757094751, 75445702479781427272750846543864801);
    SquareTimes(66628784550627212900504873757094751, 0, 75445702479781427272750846543864801, 1,
      66628784550627212900504873757094751);
    SquareTimes(66628784550627212900504873757094751, 1, 75445702479781427272750846543864801,
      66628784550627212900504873757094751, 45604285053648261875512277268407885);
    Square(66628784550627212900504873757094751, 3, 75445702479781427272750846543864801,
      45604285053648261875512277268407885, 50068673951520194986259417732868760);
    SquareTimes(66628784550627212900504873757094751, 6, 75445702479781427272750846543864801,
      50068673951520194986259417732868760, 50273777962074646227367589239171540);
    SquareTimes(66628784550627212900504873757094751, 13, 75445702479781427272750846543864801,
      50273777962074646227367589239171540, 15058779310421052230839307396196183);
    Square(66628784550627212900504873757094751, 27, 75445702479781427272750846543864801,
      15058779310421052230839307396196183, 50902355837566371248120959656474038);
    SquareTimes(66628784550627212900504873757094751, 54, 75445702479781427272750846543864801,
      50902355837566371248120959656474038, 21206465016499809198870454271623145);
    Square(66628784550627212900504873757094751, 109, 75445702479781427272750846543864801,
      21206465016499809198870454271623145, 6202912001351687102258748508311645);
    Square(66628784550627212900504873757094751, 218, 75445702479781427272750846543864801,
      6202912001351687102258748508311645, 17028375236775190050253468926060857);
    Square(66628784550627212900504873757094751, 436, 75445702479781427272750846543864801,
      17028375236775190050253468926060857, 15470770569668504529149688153490671);
    SquareTimes(66628784550627212900504873757094751, 872, 75445702479781427272750846543864801,
      15470770569668504529149688153490671, 36597652248397880940068522922093830);
    SquareTimes(66628784550627212900504873757094751, 1745, 75445702479781427272750846543864801,
      36597652248397880940068522922093830, 56768041506129477082188052435653228);
    SquareTimes(66628784550627212900504873757094751, 3491, 75445702479781427272750846543864801,
      56768041506129477082188052435653228, 66103074926524087235086584251440698);
    Square(66628784550627212900504873757094751, 6983, 75445702479781427272750846543864801,
      66103074926524087235086584251440698, 29652059197322042318966322931436250);
    Square(66628784550627212900504873757094751, 13966, 75445702479781427272750846543864801,
      29652059197322042318966322931436250, 69268547466122524310181890984769085);
    SquareTimes(66628784550627212900504873757094751, 27932, 75445702479781427272750846543864801,
      69268547466122524310181890984769085, 61928342718598538830799556066487033);
    Square(66628784550627212900504873757094751, 55865, 75445702479781427272750846543864801,
      61928342718598538830799556066487033, 3671376661627657560970441398116122);
    SquareTimes(66628784550627212900504873757094751, 111730, 75445702479781427272750846543864801,
      3671376661627657560970441398116122, 18171856469046327366069911872111523);
    Square(66628784550627212900504873757094751, 223461, 75445702479781427272750846543864801,
      18171856469046327366069911872111523, 45131946214640679911769912237744790);
    SquareTimes(66628784550627212900504873757094751, 446922, 75445702479781427272750846543864801,
      45131946214640679911769912237744790, 66357501344179587652335920020936496);
  }

  lemma R2SecondPart2(b: int, n: nat, m: int)
    requires b == 66628784550627212900504873757094751 && n == 937265414739 && m == 75445702479781427272750846543864801
    ensures IsPower(b, n, m, 54510785750526513722665980241153432)
  {
    hide IsPower;
    R2SecondPart1(66628784550627212900504873757094751, 893845, 75445702479781427272750846543864801);
    SquareTimes(66628784550627212900504873757094751, 893845, 75445702479781427272750846543864801,
      66357501344179587652335920020936496, 27832508396208390584307150674991012);
    SquareTimes(66628784550627212900504873757094751, 1787691, 75445702479781427272750846543864801,
      27832508396208390584307150674991012, 25990277726156143913691912785912884);
    SquareTimes(66628784550627212900504873757094751, 3575383, 75445702479781427272750846543864801,
      25990277726156143913691912785912884, 6408482652426712271518395304238475);
    SquareTimes(66628784550627212900504873757094751, 7150767, 75445702479781427272750846543864801,
      6408482652426712271518395304238475, 43880187285858509775319092988088251);
    Square(66628784550627212900504873757094751, 14301535, 75445702479781427272750846543864801,
      43880187285858509775319092988088251, 4914197936492829775611103174203330);
    SquareTimes(66628784550627212900504873757094751, 28603070, 75445702479781427272750846543864801,
      4914197936492829775611103174203330, 39313021332772284395418790288712169);
    Square(66628784550627212900504873757094751, 57206141, 75445702479781427272750846543864801,
      39313021332772284395418790288712169, 3695756185116853886195615027097920);
    Square(66628784550627212900504873757094751, 114412282, 75445702479781427272750846543864801,
      3695756185116853886195615027097920, 49627710045154262869109525597516463);
    Square(66628784550627212900504873757094751, 228824564, 75445702479781427272750846543864801,
      49627710045154262869109525597516463, 50355638368196189109552950922127210);
    Square(66628784550627212900504873757094751, 457649128, 75445702479781427272750846543864801,
      50355638368196189109552950922127210, 27388368674642722537158925919909526);
    SquareTimes(66628784550627212900504873757094751, 915298256, 75445702479781427272750846543864801,
      27388368674642722537158925919909526, 16295263218532394017060548782396251);
    Square(66628784550627212900504873757094751, 1830596513, 75445702479781427272750846543864801,
      16295263218532394017060548782396251, 42968424405943247006687024865916934);
    Square(66628784550627212900504873757094751, 3661193026, 75445702479781427272750846543864801,
      42968424405943247006687024865916934, 26596488834623593572607275260212156);
    SquareTimes(66628784550627212900504873757094751, 7322386052, 75445702479781427272750846543864801,
      26596488834623593572607275260212156, 13459677255577878814514728999795671);
    Square(66628784550627212900504873757094751, 14644772105, 75445702479781427272750846543864801,
      13459677255577878814514728999795671, 33930689819860176517471292020651265);
    SquareTimes(66628784550627212900504873757094751, 29289544210, 75445702479781427272750846543864801,
      33930689819860176517471292020651265, 40628844565743388276941015952547158);
    Square(66628784550627212900504873757094751, 58579088421, 75445702479781427272750846543864801,
      40628844565743388276941015952547158, 60449763446876567282838081186084179);
    Square(66628784550627212900504873757094751, 117158176842, 75445702479781427272750846543864801,
      60449763446876567282838081186084179, 62721965894855574312164216076862520);
    SquareTimes(66628784550627212900504873757094751, 234316353684, 75445702479781427272750846543864801,
      62721965894855574312164216076862520, 59168048075147610565130011970494877);
    SquareTimes(66628784550627212900504873757094751, 468632707369, 75445702479781427272750846543864801,
      59168048075147610565130011970494877, 54510785750526513722665980241153432);
  }

  lemma R2Second(b: int, n: nat, m: int)
    requires b == 66628784550627212900504873757094751 && n == 1919519569386763
    requires m == 75445702479781427272750846543864801
    ensures IsPower(b, n, m, 58781699294900834553279248901967638)
  {
    hide IsPower;
    R2SecondPart2(66628784550627212900504873757094751, 937265414739, 75445702479781427272750846543864801);
    SquareTimes(66628784550627212900504873757094751, 937265414739, 75445702479781427272750846543864801,
      54510785750526513722665980241153432, 23033530551958373777540634061687700);
    Square(66628784550627212900504873757094751, 1874530829479, 75445702479781427272750846543864801,
      23033530551958373777540634061687700, 44496020952077669198809798285322779);
    SquareTimes(66628784550627212900504873757094751, 3749061658958, 75445702479781427272750846543864801,
      44496020952077669198809798285322779, 73337036978360131513817144051464741);
    Square(66628784550627212900504873757094751, 7498123317917, 75445702479781427272750846543864801,
      73337036978360131513817144051464741, 55847300131312415667071686708521457);
    Square(66628784550627212900504873757094751, 14996246635834, 75445702479781427272750846543864801,
      55847300131312415667071686708521457, 67355150229881840304542464966637813);
    Square(66628784550627212900504873757094751, 29992493271668, 75445702479781427272750846543864801,
      67355150229881840304542464966637813, 70839062353057714763705976946877204);
    Square(66628784550627212900504873757094751, 59984986543336, 75445702479781427272750846543864801,
      70839062353057714763705976946877204, 270678303702138036624810740281698);
    SquareTimes(66628784550627212900504873757094751, 119969973086672, 75445702479781427272750846543864801,
      270678303702138036624810740281698, 8559037515425802415212303778575481);
    Square(66628784550627212900504873757094751, 239939946173345, 75445702479781427272750846543864801,
      8559037515425802415212303778575481, 44932121827981816205087289201135323);
    SquareTimes(66628784550627212900504873757094751, 479879892346690, 75445702479781427272750846543864801,
      44932121827981816205087289201135323, 6942965338043500895586851295484565);
    SquareTimes(66628784550627212900504873757094751, 959759784693381, 75445702479781427272750846543864801,
      6942965338043500895586851295484565, 58781699294900834553279248901967638);
  }

  lemma R2Order(b: int, n: nat, m: int)
    requires b == 58781699294900834553279248901967638 && n == 75707 && m == 75445702479781427272750846543864801
    ensures IsPower(b, n, m, 1)
  {
    hide IsPower;
    ZeroPower(58781699294900834553279248901967638, 75445702479781427272750846543864801);
    SquareTimes(58781699294900834553279248901967638, 0, 75445702479781427272750846543864801, 1,
      58781699294900834553279248901967638);
    Square(58781699294900834553279248901967638, 1, 75445702479781427272750846543864801,
      58781699294900834553279248901967638, 19272071963980053171874812410858062);
    Square(58781699294900834553279248901967638, 2, 75445702479781427272750846543864801,
      19272071963980053171874812410858062, 10857113732875552884559949348183714);
    SquareTimes(58781699294900834553279248901967638, 4, 75445702479781427272750846543864801,
      10857113732875552884559949348183714, 37861386965902158392126361241741285);
    Square(58781699294900834553279248901967638, 9, 75445702479781427272750846543864801,
      37861386965902158392126361241741285, 67447059549274550976172462060274558);
    Square(58781699294900834553279248901967638, 18, 75445702479781427272750846543864801,
      67447059549274550976172462060274558, 22845150612647514685709838606502843);
    SquareTimes(58781699294900834553279248901967638, 36, 75445702479781427272750846543864801,
      22845150612647514685709838606502843, 13032174792409769475902886973017269);
    SquareTimes(58781699294900834553279248901967638, 73, 75445702479781427272750846543864801,
      13032174792409769475902886973017269, 56396309446115810308722588662736980);
    SquareTimes(58781699294900834553279248901967638, 147, 75445702479781427272750846543864801,
      56396309446115810308722588662736980, 43606569418259492473421754424002376);
    SquareTimes(58781699294900834553279248901967638, 295, 75445702479781427272750846543864801,
      43606569418259492473421754424002376, 41247452127839348557193559971532426);
    Square(58781699294900834553279248901967638, 591, 75445702479781427272750846543864801,
      41247452127839348557193559971532426, 60273352786765568393059048004767158);
    SquareTimes(58781699294900834553279248901967638, 1182, 75445702479781427272750846543864801,
      60273352786765568393059048004767158, 17935781077466366980090080633886685);
    SquareTimes(58781699294900834553279248901967638, 2365, 75445702479781427272750846543864801,
      17935781077466366980090080633886685, 16430842475225517589341425812002149);
    SquareTimes(58781699294900834553279248901967638, 4731, 75445702479781427272750846543864801,
      16430842475225517589341425812002149, 36588309395503799027174081950811862);
    Square(58781699294900834553279248901967638, 9463, 75445702479781427272750846543864801,
      36588309395503799027174081950811862, 46635804452740277961578082113988866);
    SquareTimes(58781699294900834553279248901967638, 18926, 75445702479781427272750846543864801,
      46635804452740277961578082113988866, 28334687151944976347191379370218119);
    SquareTimes(58781699294900834553279248901967638, 37853, 75445702479781427272750846543864801,
      28334687151944976347191379370218119, 1);
  }

  lemma R2Prime()
    ensures Prime(R2)
  {
    hide IsPower, Prime;
    R2First(66628784550627212900504873757094751, 75707, 75445702479781427272750846543864801);
    R2Second(66628784550627212900504873757094751, 1919519569386763, 75445702479781427272750846543864801);
    R2Order(58781699294900834553279248901967638, 75707, 75445702479781427272750846543864801);
    P75707Prime();
    R3Prime();
    PrimeByTwo(75445702479781427272750846543864801, 75707, 1919519569386763, 66628784550627212900504873757094751,
      56747016255153332959347766392083459, 74602835786463724888147869570305675, 56113048138023733339996598108928949,
      58781699294900834553279248901967638, 8986369574106813140303762220009459, 7001513097443202581781503170404782);
  }

  lemma R1First(b: int, n: nat, m: int)
    requires b == 25686082838651505011370039260590883329232637451457271664974363710626838 && n == 353
    requires m == 74058212732561358302231226437062788676166966415465897661863160754340907
    ensures IsPower(b, n, m, 69490809710348678725736597923071784769591275419387514694139338586948360)
  {
    hide IsPower;
    ZeroPower(25686082838651505011370039260590883329232637451457271664974363710626838,
      74058212732561358302231226437062788676166966415465897661863160754340907);
    SquareTimes(25686082838651505011370039260590883329232637451457271664974363710626838, 0,
      74058212732561358302231226437062788676166966415465897661863160754340907, 1,
      25686082838651505011370039260590883329232637451457271664974363710626838);
    Square(25686082838651505011370039260590883329232637451457271664974363710626838, 1,
      74058212732561358302231226437062788676166966415465897661863160754340907,
      25686082838651505011370039260590883329232637451457271664974363710626838,
      39805173220187874696401317813642875672975797766237747125448661259497948);
    SquareTimes(25686082838651505011370039260590883329232637451457271664974363710626838, 2,
      74058212732561358302231226437062788676166966415465897661863160754340907,
      39805173220187874696401317813642875672975797766237747125448661259497948,
      47546898665670693803377198027300730356825012248466174764494501495986744);
    SquareTimes(25686082838651505011370039260590883329232637451457271664974363710626838, 5,
      74058212732561358302231226437062788676166966415465897661863160754340907,
      47546898665670693803377198027300730356825012248466174764494501495986744,
      8460434230463527439331504536420141219874235045250110808283688165465864);
    Square(25686082838651505011370039260590883329232637451457271664974363710626838, 11,
      74058212732561358302231226437062788676166966415465897661863160754340907,
      8460434230463527439331504536420141219874235045250110808283688165465864,
      31629568520921214875502618052685466098344295851729552370902660857983988);
    Square(25686082838651505011370039260590883329232637451457271664974363710626838, 22,
      74058212732561358302231226437062788676166966415465897661863160754340907,
      31629568520921214875502618052685466098344295851729552370902660857983988,
      5283518146828171197579713557152266917938979731105972603994788232583786);
    Square(25686082838651505011370039260590883329232637451457271664974363710626838, 44,
      74058212732561358302231226437062788676166966415465897661863160754340907,
      5283518146828171197579713557152266917938979731105972603994788232583786,
      29011571627927371194786068417831479654441514416083442221603786307182286);
    Square(25686082838651505011370039260590883329232637451457271664974363710626838, 88,
      74058212732561358302231226437062788676166966415465897661863160754340907,
      29011571627927371194786068417831479654441514416083442221603786307182286,
      51546170415019595584366323743398354277047353535533896060302696100746387);
    SquareTimes(25686082838651505011370039260590883329232637451457271664974363710626838, 176,
      74058212732561358302231226437062788676166966415465897661863160754340907,
      51546170415019595584366323743398354277047353535533896060302696100746387,
      69490809710348678725736597923071784769591275419387514694139338586948360);
  }

  lemma R1SecondPart1(b: int, n: nat, m: int)
    requires b == 25686082838651505011370039260590883329232637451457271664974363710626838 && n == 952258
    requires m == 74058212732561358302231226437062788676166966415465897661863160754340907
    ensures IsPower(b, n, m, 17705993827318472509249254972803819829850628087677644695957790483600236)
  {
    hide IsPower;
    ZeroPower(25686082838651505011370039260590883329232637451457271664974363710626838,
      74058212732561358302231226437062788676166966415465897661863160754340907);
    SquareTimes(25686082838651505011370039260590883329232637451457271664974363710626838, 0,
      74058212732561358302231226437062788676166966415465897661863160754340907, 1,
      25686082838651505011370039260590883329232637451457271664974363710626838);
    SquareTimes(25686082838651505011370039260590883329232637451457271664974363710626838, 1,
      74058212732561358302231226437062788676166966415465897661863160754340907,
      25686082838651505011370039260590883329232637451457271664974363710626838,
      42802524982156923537190678224181680890110687793942621749364640586828700);
    SquareTimes(25686082838651505011370039260590883329232637451457271664974363710626838, 3,
      74058212732561358302231226437062788676166966415465897661863160754340907,
      42802524982156923537190678224181680890110687793942621749364640586828700,
      14615455901931249626027327061807197776430247580289784320399772805924854);
    Square(25686082838651505011370039260590883329232637451457271664974363710626838, 7,
      74058212732561358302231226437062788676166966415465897661863160754340907,
      14615455901931249626027327061807197776430247580289784320399772805924854,
      7803327779411096992618564766516790117950169608006040895056729094882722);
    SquareTimes(25686082838651505011370039260590883329232637451457271664974363710626838, 14,
      74058212732561358302231226437062788676166966415465897661863160754340907,
      7803327779411096992618564766516790117950169608006040895056729094882722,
      22980553465620611887053436407798709411909963912879492565244532999671668);
    Square(25686082838651505011370039260590883329232637451457271664974363710626838, 29,
      74058212732561358302231226437062788676166966415465897661863160754340907,
      22980553465620611887053436407798709411909963912879492565244532999671668,
      26764570123308492947842159073123610887683361491146017365679823670165228);
    Square(25686082838651505011370039260590883329232637451457271664974363710626838, 58,
      74058212732561358302231226437062788676166966415465897661863160754340907,
      26764570123308492947842159073123610887683361491146017365679823670165228,
      35357338818885429579406167127828051549979571903580865388568917772440933);
    Square(25686082838651505011370039260590883329232637451457271664974363710626838, 116,
      74058212732561358302231226437062788676166966415465897661863160754340907,
      35357338818885429579406167127828051549979571903580865388568917772440933,
      41489968054771055384336128602586001724313078999777134057758752218148288);
    Square(25686082838651505011370039260590883329232637451457271664974363710626838, 232,
      74058212732561358302231226437062788676166966415465897661863160754340907,
      41489968054771055384336128602586001724313078999777134057758752218148288,
      6846977928588077928437911730777671317140537476261284201824698737507212);
    SquareTimes(25686082838651505011370039260590883329232637451457271664974363710626838, 464,
      74058212732561358302231226437062788676166966415465897661863160754340907,
      6846977928588077928437911730777671317140537476261284201824698737507212,
      46115001120317968514622057777387620847635644080306158696370898968663400);
    SquareTimes(25686082838651505011370039260590883329232637451457271664974363710626838, 929,
      74058212732561358302231226437062788676166966415465897661863160754340907,
      46115001120317968514622057777387620847635644080306158696370898968663400,
      16556641210801531284758173211462809843065396846084942343636602867091293);
    SquareTimes(25686082838651505011370039260590883329232637451457271664974363710626838, 1859,
      74058212732561358302231226437062788676166966415465897661863160754340907,
      16556641210801531284758173211462809843065396846084942343636602867091293,
      70978857235909610032690202582308211327066926916355005374310649101533204);
    SquareTimes(25686082838651505011370039260590883329232637451457271664974363710626838, 3719,
      74058212732561358302231226437062788676166966415465897661863160754340907,
      70978857235909610032690202582308211327066926916355005374310649101533204,
      27394851636389312739511355980834368109491126127325993846089254523356793);
    SquareTimes(25686082838651505011370039260590883329232637451457271664974363710626838, 7439,
      74058212732561358302231226437062788676166966415465897661863160754340907,
      27394851636389312739511355980834368109491126127325993846089254523356793,
      47400224027183183087866351218423040155775825851815717266303078846862223);
    Square(25686082838651505011370039260590883329232637451457271664974363710626838, 14879,
      74058212732561358302231226437062788676166966415465897661863160754340907,
      47400224027183183087866351218423040155775825851815717266303078846862223,
      67866612168168471032109751989820249291412395788472225005358004164129886);
    Square(25686082838651505011370039260590883329232637451457271664974363710626838, 29758,
      74058212732561358302231226437062788676166966415465897661863160754340907,
      67866612168168471032109751989820249291412395788472225005358004164129886,
      197015616645936412203825901336160161040855965974552380801623544037706);
    Square(25686082838651505011370039260590883329232637451457271664974363710626838, 59516,
      74058212732561358302231226437062788676166966415465897661863160754340907,
      197015616645936412203825901336160161040855965974552380801623544037706,
      16027585393134998072580016956851160602148924099786230309708465126134379);
    Square(25686082838651505011370039260590883329232637451457271664974363710626838, 119032,
      74058212732561358302231226437062788676166966415465897661863160754340907,
      16027585393134998072580016956851160602148924099786230309708465126134379,
      39011344506776491563975854658721328528606281551937965564132312861688840);
    SquareTimes(25686082838651505011370039260590883329232637451457271664974363710626838, 238064,
      74058212732561358302231226437062788676166966415465897661863160754340907,
      39011344506776491563975854658721328528606281551937965564132312861688840,
      49807372505766935346710129214915359053818221649120239008663476056420877);
    Square(25686082838651505011370039260590883329232637451457271664974363710626838, 476129,
      74058212732561358302231226437062788676166966415465897661863160754340907,
      49807372505766935346710129214915359053818221649120239008663476056420877,
      17705993827318472509249254972803819829850628087677644695957790483600236);
  }

  lemma R1SecondPart2(b: int, n: nat, m: int)
    requires b == 25686082838651505011370039260590883329232637451457271664974363710626838 && n == 998515558267
    requires m == 74058212732561358302231226437062788676166966415465897661863160754340907
    ensures IsPower(b, n, m, 7926894064966246954422626043407975304375983100896050451975635459465952)
  {
    hide IsPower;
    R1SecondPart1(25686082838651505011370039260590883329232637451457271664974363710626838, 952258,
      74058212732561358302231226437062788676166966415465897661863160754340907);
    SquareTimes(25686082838651505011370039260590883329232637451457271664974363710626838, 952258,
      74058212732561358302231226437062788676166966415465897661863160754340907,
      17705993827318472509249254972803819829850628087677644695957790483600236,
      7795415714129221753238566613556411137524920094496473718896485424165844);
    Square(25686082838651505011370039260590883329232637451457271664974363710626838, 1904517,
      74058212732561358302231226437062788676166966415465897661863160754340907,
      7795415714129221753238566613556411137524920094496473718896485424165844,
      13837662894036470273708244353273739604513394039403680884136224104687890);
    SquareTimes(25686082838651505011370039260590883329232637451457271664974363710626838, 3809034,
      74058212732561358302231226437062788676166966415465897661863160754340907,
      13837662894036470273708244353273739604513394039403680884136224104687890,
      60216204915615026262428074563027763445390270754846241438933746485405559);
    Square(25686082838651505011370039260590883329232637451457271664974363710626838, 7618069,
      74058212732561358302231226437062788676166966415465897661863160754340907,
      60216204915615026262428074563027763445390270754846241438933746485405559,
      56846121510893939614439341322103327151340366264677390204128715221386187);
    Square(25686082838651505011370039260590883329232637451457271664974363710626838, 15236138,
      74058212732561358302231226437062788676166966415465897661863160754340907,
      56846121510893939614439341322103327151340366264677390204128715221386187,
      16724751504460827526864688363855774230459444327766121854520119420999874);
    SquareTimes(25686082838651505011370039260590883329232637451457271664974363710626838, 30472276,
      74058212732561358302231226437062788676166966415465897661863160754340907,
      16724751504460827526864688363855774230459444327766121854520119420999874,
      13088480981758417636569295141224301034095798921463202702947820821204810);
    Square(25686082838651505011370039260590883329232637451457271664974363710626838, 60944553,
      74058212732561358302231226437062788676166966415465897661863160754340907,
      13088480981758417636569295141224301034095798921463202702947820821204810,
      26022302115055942816559189223040055676180976962478913277522595983073536);
    Square(25686082838651505011370039260590883329232637451457271664974363710626838, 121889106,
      74058212732561358302231226437062788676166966415465897661863160754340907,
      26022302115055942816559189223040055676180976962478913277522595983073536,
      54556630371116364108807181177911846893568469674485985003158942358339155);
    Square(25686082838651505011370039260590883329232637451457271664974363710626838, 243778212,
      74058212732561358302231226437062788676166966415465897661863160754340907,
      54556630371116364108807181177911846893568469674485985003158942358339155,
      10732706426046171222771031347875479996962645570730874150053296110953629);
    SquareTimes(25686082838651505011370039260590883329232637451457271664974363710626838, 487556424,
      74058212732561358302231226437062788676166966415465897661863160754340907,
      10732706426046171222771031347875479996962645570730874150053296110953629,
      54078694546819794366167268315964195585958764163068801552537449153018656);
    SquareTimes(25686082838651505011370039260590883329232637451457271664974363710626838, 975112849,
      74058212732561358302231226437062788676166966415465897661863160754340907,
      54078694546819794366167268315964195585958764163068801552537449153018656,
      63637937726332383863155795428980239861079669040920823654356189829718829);
    SquareTimes(25686082838651505011370039260590883329232637451457271664974363710626838, 1950225699,
      74058212732561358302231226437062788676166966415465897661863160754340907,
      63637937726332383863155795428980239861079669040920823654356189829718829,
      26971238654822912305355593927627144448426019583059678264345212545232057);
    Square(25686082838651505011370039260590883329232637451457271664974363710626838, 3900451399,
      74058212732561358302231226437062788676166966415465897661863160754340907,
      26971238654822912305355593927627144448426019583059678264345212545232057,
      72662442464843906883624029707316194455460278406237085776455509110655591);
    SquareTimes(25686082838651505011370039260590883329232637451457271664974363710626838, 7800902798,
      74058212732561358302231226437062788676166966415465897661863160754340907,
      72662442464843906883624029707316194455460278406237085776455509110655591,
      37791883638816947007332804183319514166873653040813247184848396741835661);
    SquareTimes(25686082838651505011370039260590883329232637451457271664974363710626838, 15601805597,
      74058212732561358302231226437062788676166966415465897661863160754340907,
      37791883638816947007332804183319514166873653040813247184848396741835661,
      22103098362438101790221908753561671092015281711129325873739193519088917);
    SquareTimes(25686082838651505011370039260590883329232637451457271664974363710626838, 31203611195,
      74058212732561358302231226437062788676166966415465897661863160754340907,
      22103098362438101790221908753561671092015281711129325873739193519088917,
      73658358355385262610673264867732325430738402268648228267221942556155702);
    SquareTimes(25686082838651505011370039260590883329232637451457271664974363710626838, 62407222391,
      74058212732561358302231226437062788676166966415465897661863160754340907,
      73658358355385262610673264867732325430738402268648228267221942556155702,
      31253234300272235841064009307822193211179319151582329600765255180097238);
    Square(25686082838651505011370039260590883329232637451457271664974363710626838, 124814444783,
      74058212732561358302231226437062788676166966415465897661863160754340907,
      31253234300272235841064009307822193211179319151582329600765255180097238,
      38332508197732309057170829967910097471748064968748580533076618749025436);
    SquareTimes(25686082838651505011370039260590883329232637451457271664974363710626838, 249628889566,
      74058212732561358302231226437062788676166966415465897661863160754340907,
      38332508197732309057170829967910097471748064968748580533076618749025436,
      73975697226244114367443585752899115601993409385279554080681683549446034);
    SquareTimes(25686082838651505011370039260590883329232637451457271664974363710626838, 499257779133,
      74058212732561358302231226437062788676166966415465897661863160754340907,
      73975697226244114367443585752899115601993409385279554080681683549446034,
      7926894064966246954422626043407975304375983100896050451975635459465952);
  }

  lemma R1SecondPart3(b: int, n: nat, m: int)
    requires b == 25686082838651505011370039260590883329232637451457271664974363710626838 && n == 1047019450025907617
    requires m == 74058212732561358302231226437062788676166966415465897661863160754340907
    ensures IsPower(b, n, m, 1726328714113806619170551301773578147740420215340467050291455913995067)
  {
    hide IsPower;
    R1SecondPart2(25686082838651505011370039260590883329232637451457271664974363710626838, 998515558267,
      74058212732561358302231226437062788676166966415465897661863160754340907);
    SquareTimes(25686082838651505011370039260590883329232637451457271664974363710626838, 998515558267,
      74058212732561358302231226437062788676166966415465897661863160754340907,
      7926894064966246954422626043407975304375983100896050451975635459465952,
      33898716734542869225241031708002579540654039956039982146655270181679992);
    Square(25686082838651505011370039260590883329232637451457271664974363710626838, 1997031116535,
      74058212732561358302231226437062788676166966415465897661863160754340907,
      33898716734542869225241031708002579540654039956039982146655270181679992,
      51026116396652417229735604956705268150864127585999083966749719813265363);
    Square(25686082838651505011370039260590883329232637451457271664974363710626838, 3994062233070,
      74058212732561358302231226437062788676166966415465897661863160754340907,
      51026116396652417229735604956705268150864127585999083966749719813265363,
      57000769291919022788178473188482815033131557261657801686194015099153284);
    Square(25686082838651505011370039260590883329232637451457271664974363710626838, 7988124466140,
      74058212732561358302231226437062788676166966415465897661863160754340907,
      57000769291919022788178473188482815033131557261657801686194015099153284,
      11929319724891006132703031285767690944096676372060251492673446966633132);
    Square(25686082838651505011370039260590883329232637451457271664974363710626838, 15976248932280,
      74058212732561358302231226437062788676166966415465897661863160754340907,
      11929319724891006132703031285767690944096676372060251492673446966633132,
      15948064440604951559623556809994736281766927429775931747986400570604239);
    Square(25686082838651505011370039260590883329232637451457271664974363710626838, 31952497864560,
      74058212732561358302231226437062788676166966415465897661863160754340907,
      15948064440604951559623556809994736281766927429775931747986400570604239,
      18563475823230583156164957006787826671581370931722018958154573922754582);
    Square(25686082838651505011370039260590883329232637451457271664974363710626838, 63904995729120,
      74058212732561358302231226437062788676166966415465897661863160754340907,
      18563475823230583156164957006787826671581370931722018958154573922754582,
      66917245601381253185899045430363471779672946733129312144682092554620721);
    SquareTimes(25686082838651505011370039260590883329232637451457271664974363710626838, 127809991458240,
      74058212732561358302231226437062788676166966415465897661863160754340907,
      66917245601381253185899045430363471779672946733129312144682092554620721,
      42196241543750705315662263333972691556766463701996598509139192685324660);
    Square(25686082838651505011370039260590883329232637451457271664974363710626838, 255619982916481,
      74058212732561358302231226437062788676166966415465897661863160754340907,
      42196241543750705315662263333972691556766463701996598509139192685324660,
      8823312839353818086169089772398780082165984458403045990524563164704726);
    SquareTimes(25686082838651505011370039260590883329232637451457271664974363710626838, 511239965832962,
      74058212732561358302231226437062788676166966415465897661863160754340907,
      8823312839353818086169089772398780082165984458403045990524563164704726,
      781485706744204359580478223030715060883455197123402072792142029128863);
    Square(25686082838651505011370039260590883329232637451457271664974363710626838, 1022479931665925,
      74058212732561358302231226437062788676166966415465897661863160754340907,
      781485706744204359580478223030715060883455197123402072792142029128863,
      45062762422006258467563212456622035120138551956954435789733295853345133);
    SquareTimes(25686082838651505011370039260590883329232637451457271664974363710626838, 2044959863331850,
      74058212732561358302231226437062788676166966415465897661863160754340907,
      45062762422006258467563212456622035120138551956954435789733295853345133,
      40168881028550398905512442615312459169169512439988694815626397031470879);
    SquareTimes(25686082838651505011370039260590883329232637451457271664974363710626838, 4089919726663701,
      74058212732561358302231226437062788676166966415465897661863160754340907,
      40168881028550398905512442615312459169169512439988694815626397031470879,
      50800324469166578327408836597575340198266890236241805743510544628084234);
    Square(25686082838651505011370039260590883329232637451457271664974363710626838, 8179839453327403,
      74058212732561358302231226437062788676166966415465897661863160754340907,
      50800324469166578327408836597575340198266890236241805743510544628084234,
      10959051641681076010145002530366244690645375988596905784540538668831);
    SquareTimes(25686082838651505011370039260590883329232637451457271664974363710626838, 16359678906654806,
      74058212732561358302231226437062788676166966415465897661863160754340907,
      10959051641681076010145002530366244690645375988596905784540538668831,
      32206825851867462610068104838304346658187601017692525645800648450311380);
    Square(25686082838651505011370039260590883329232637451457271664974363710626838, 32719357813309613,
      74058212732561358302231226437062788676166966415465897661863160754340907,
      32206825851867462610068104838304346658187601017692525645800648450311380,
      8911420451550998415760888679253933826359324267241652859999199979617082);
    Square(25686082838651505011370039260590883329232637451457271664974363710626838, 65438715626619226,
      74058212732561358302231226437062788676166966415465897661863160754340907,
      8911420451550998415760888679253933826359324267241652859999199979617082,
      39107945496367901856038867545723084880746207642129114295329055024248823);
    Square(25686082838651505011370039260590883329232637451457271664974363710626838, 130877431253238452,
      74058212732561358302231226437062788676166966415465897661863160754340907,
      39107945496367901856038867545723084880746207642129114295329055024248823,
      29128800427782049938160894408757271449356638536890080056351291261554531);
    Square(25686082838651505011370039260590883329232637451457271664974363710626838, 261754862506476904,
      74058212732561358302231226437062788676166966415465897661863160754340907,
      29128800427782049938160894408757271449356638536890080056351291261554531,
      62141835741794676627090522386963344340690602581381032645072802742114837);
    SquareTimes(25686082838651505011370039260590883329232637451457271664974363710626838, 523509725012953808,
      74058212732561358302231226437062788676166966415465897661863160754340907,
      62141835741794676627090522386963344340690602581381032645072802742114837,
      1726328714113806619170551301773578147740420215340467050291455913995067);
  }

  lemma R1SecondPart4(b: int, n: nat, m: int)
    requires b == 25686082838651505011370039260590883329232637451457271664974363710626838
    requires n == 1097879466830366105899896
    requires m == 74058212732561358302231226437062788676166966415465897661863160754340907
    ensures IsPower(b, n, m, 72284799931139302251843776583201538756043654313967963413173182362434476)
  {
    hide IsPower;
    R1SecondPart3(25686082838651505011370039260590883329232637451457271664974363710626838, 1047019450025907617,
      74058212732561358302231226437062788676166966415465897661863160754340907);
    Square(25686082838651505011370039260590883329232637451457271664974363710626838, 1047019450025907617,
      74058212732561358302231226437062788676166966415465897661863160754340907,
      1726328714113806619170551301773578147740420215340467050291455913995067,
      12965016416459217786684062709775608926708329040864976290592279815455092);
    SquareTimes(25686082838651505011370039260590883329232637451457271664974363710626838, 2094038900051815234,
      74058212732561358302231226437062788676166966415465897661863160754340907,
      12965016416459217786684062709775608926708329040864976290592279815455092,
      27685584806882067757443994909078009692414384929531344362858805818317299);
    SquareTimes(25686082838651505011370039260590883329232637451457271664974363710626838, 4188077800103630469,
      74058212732561358302231226437062788676166966415465897661863160754340907,
      27685584806882067757443994909078009692414384929531344362858805818317299,
      59479009039630122910145743591142546838591911551758519827348207811927991);
    SquareTimes(25686082838651505011370039260590883329232637451457271664974363710626838, 8376155600207260939,
      74058212732561358302231226437062788676166966415465897661863160754340907,
      59479009039630122910145743591142546838591911551758519827348207811927991,
      14168464937297124940319346047097870384240814318808446129030613133630062);
    SquareTimes(25686082838651505011370039260590883329232637451457271664974363710626838, 16752311200414521879,
      74058212732561358302231226437062788676166966415465897661863160754340907,
      14168464937297124940319346047097870384240814318808446129030613133630062,
      61869051967266302578045550308843070534787505246900806448158159536595718);
    Square(25686082838651505011370039260590883329232637451457271664974363710626838, 33504622400829043759,
      74058212732561358302231226437062788676166966415465897661863160754340907,
      61869051967266302578045550308843070534787505246900806448158159536595718,
      13805911593408946520434956176862547433602408492389518002856770136969702);
    Square(25686082838651505011370039260590883329232637451457271664974363710626838, 67009244801658087518,
      74058212732561358302231226437062788676166966415465897661863160754340907,
      13805911593408946520434956176862547433602408492389518002856770136969702,
      56759253664945032145051206238519510933742644426242872690978075152219208);
    SquareTimes(25686082838651505011370039260590883329232637451457271664974363710626838, 134018489603316175036,
      74058212732561358302231226437062788676166966415465897661863160754340907,
      56759253664945032145051206238519510933742644426242872690978075152219208,
      62784877854570805295374356928437411302255730885030680627635703384827886);
    Square(25686082838651505011370039260590883329232637451457271664974363710626838, 268036979206632350073,
      74058212732561358302231226437062788676166966415465897661863160754340907,
      62784877854570805295374356928437411302255730885030680627635703384827886,
      73877005832956130360735332818981764124421839971939824502308712475249535);
    Square(25686082838651505011370039260590883329232637451457271664974363710626838, 536073958413264700146,
      74058212732561358302231226437062788676166966415465897661863160754340907,
      73877005832956130360735332818981764124421839971939824502308712475249535,
      32078872510034300683721969666082605205980797407905313634227873339841541);
    SquareTimes(25686082838651505011370039260590883329232637451457271664974363710626838, 1072147916826529400292,
      74058212732561358302231226437062788676166966415465897661863160754340907,
      32078872510034300683721969666082605205980797407905313634227873339841541,
      27355142571315642709529032935091319351964019751824461474516625955996422);
    SquareTimes(25686082838651505011370039260590883329232637451457271664974363710626838, 2144295833653058800585,
      74058212732561358302231226437062788676166966415465897661863160754340907,
      27355142571315642709529032935091319351964019751824461474516625955996422,
      6903798137239972281401397674507456690335045934127030327997897902277775);
    Square(25686082838651505011370039260590883329232637451457271664974363710626838, 4288591667306117601171,
      74058212732561358302231226437062788676166966415465897661863160754340907,
      6903798137239972281401397674507456690335045934127030327997897902277775,
      55321585922323806921266674584192249656982415452185411864417472335292378);
    SquareTimes(25686082838651505011370039260590883329232637451457271664974363710626838, 8577183334612235202342,
      74058212732561358302231226437062788676166966415465897661863160754340907,
      55321585922323806921266674584192249656982415452185411864417472335292378,
      13578406663693035271473120134152884170742291526167690476563538598973565);
    SquareTimes(25686082838651505011370039260590883329232637451457271664974363710626838, 17154366669224470404685,
      74058212732561358302231226437062788676166966415465897661863160754340907,
      13578406663693035271473120134152884170742291526167690476563538598973565,
      49337582134593987995822659025088881250284611748219063722708115205491934);
    SquareTimes(25686082838651505011370039260590883329232637451457271664974363710626838, 34308733338448940809371,
      74058212732561358302231226437062788676166966415465897661863160754340907,
      49337582134593987995822659025088881250284611748219063722708115205491934,
      31499087808538344709381989672375367032521285361778731128076193854959637);
    SquareTimes(25686082838651505011370039260590883329232637451457271664974363710626838, 68617466676897881618743,
      74058212732561358302231226437062788676166966415465897661863160754340907,
      31499087808538344709381989672375367032521285361778731128076193854959637,
      9849212022006924553258499020087747085153337414098511342240728730719191);
    Square(25686082838651505011370039260590883329232637451457271664974363710626838, 137234933353795763237487,
      74058212732561358302231226437062788676166966415465897661863160754340907,
      9849212022006924553258499020087747085153337414098511342240728730719191,
      71462381456489006943441496262270231910805780061791003438909203400842641);
    Square(25686082838651505011370039260590883329232637451457271664974363710626838, 274469866707591526474974,
      74058212732561358302231226437062788676166966415465897661863160754340907,
      71462381456489006943441496262270231910805780061791003438909203400842641,
      8446481859186627091481705245218965172833680405261311674317024846776336);
    Square(25686082838651505011370039260590883329232637451457271664974363710626838, 548939733415183052949948,
      74058212732561358302231226437062788676166966415465897661863160754340907,
      8446481859186627091481705245218965172833680405261311674317024846776336,
      72284799931139302251843776583201538756043654313967963413173182362434476);
  }

  lemma R1SecondPart5(b: int, n: nat, m: int)
    requires b == 25686082838651505011370039260590883329232637451457271664974363710626838
    requires n == 1151210059811117969860089821531
    requires m == 74058212732561358302231226437062788676166966415465897661863160754340907
    ensures IsPower(b, n, m, 18186090025996518795189365466940014515526868970139684008464777792162694)
  {
    hide IsPower;
    R1SecondPart4(25686082838651505011370039260590883329232637451457271664974363710626838, 1097879466830366105899896,
      74058212732561358302231226437062788676166966415465897661863160754340907);
    Square(25686082838651505011370039260590883329232637451457271664974363710626838, 1097879466830366105899896,
      74058212732561358302231226437062788676166966415465897661863160754340907,
      72284799931139302251843776583201538756043654313967963413173182362434476,
      31651199559082018910167709457876700912621069261559100322347100588384611);
    SquareTimes(25686082838651505011370039260590883329232637451457271664974363710626838, 2195758933660732211799792,
      74058212732561358302231226437062788676166966415465897661863160754340907,
      31651199559082018910167709457876700912621069261559100322347100588384611,
      58441501293835822333403519826280096318191638000963777340380808247533715);
    SquareTimes(25686082838651505011370039260590883329232637451457271664974363710626838, 4391517867321464423599585,
      74058212732561358302231226437062788676166966415465897661863160754340907,
      58441501293835822333403519826280096318191638000963777340380808247533715,
      29739061146888231006730992861051040436367689144623177664402574372017581);
    SquareTimes(25686082838651505011370039260590883329232637451457271664974363710626838, 8783035734642928847199171,
      74058212732561358302231226437062788676166966415465897661863160754340907,
      29739061146888231006730992861051040436367689144623177664402574372017581,
      63002094978780844767145073395788874250752431471983507233269816306226353);
    Square(25686082838651505011370039260590883329232637451457271664974363710626838, 17566071469285857694398343,
      74058212732561358302231226437062788676166966415465897661863160754340907,
      63002094978780844767145073395788874250752431471983507233269816306226353,
      27888460527428023957626267190656043244582985061948661907009352904953269);
    Square(25686082838651505011370039260590883329232637451457271664974363710626838, 35132142938571715388796686,
      74058212732561358302231226437062788676166966415465897661863160754340907,
      27888460527428023957626267190656043244582985061948661907009352904953269,
      68418346631086460386336576423810281189350616001823133365063449678854387);
    SquareTimes(25686082838651505011370039260590883329232637451457271664974363710626838, 70264285877143430777593372,
      74058212732561358302231226437062788676166966415465897661863160754340907,
      68418346631086460386336576423810281189350616001823133365063449678854387,
      55462230047350316247137488102646509600059300326311406464429109956169410);
    SquareTimes(25686082838651505011370039260590883329232637451457271664974363710626838, 140528571754286861555186745,
      74058212732561358302231226437062788676166966415465897661863160754340907,
      55462230047350316247137488102646509600059300326311406464429109956169410,
      22856939481111420228283157320464115885642047729128509851333995504258524);
    SquareTimes(25686082838651505011370039260590883329232637451457271664974363710626838, 281057143508573723110373491,
      74058212732561358302231226437062788676166966415465897661863160754340907,
      22856939481111420228283157320464115885642047729128509851333995504258524,
      975474746408587919235241917630776661753064856994568737415147656917507);
    Square(25686082838651505011370039260590883329232637451457271664974363710626838, 562114287017147446220746983,
      74058212732561358302231226437062788676166966415465897661863160754340907,
      975474746408587919235241917630776661753064856994568737415147656917507,
      21438267224828973234986836802618761923942579222858213369270628019461515);
    Square(25686082838651505011370039260590883329232637451457271664974363710626838, 1124228574034294892441493966,
      74058212732561358302231226437062788676166966415465897661863160754340907,
      21438267224828973234986836802618761923942579222858213369270628019461515,
      36409607229374279970273615865345232359331979429520459048131347121641729);
    SquareTimes(25686082838651505011370039260590883329232637451457271664974363710626838, 2248457148068589784882987932,
      74058212732561358302231226437062788676166966415465897661863160754340907,
      36409607229374279970273615865345232359331979429520459048131347121641729,
      3807816196893075015422251961647470883635210293839563557271453701304069);
    Square(25686082838651505011370039260590883329232637451457271664974363710626838, 4496914296137179569765975865,
      74058212732561358302231226437062788676166966415465897661863160754340907,
      3807816196893075015422251961647470883635210293839563557271453701304069,
      69527482577461516518860173554206202456356613986516101597372200712969387);
    SquareTimes(25686082838651505011370039260590883329232637451457271664974363710626838, 8993828592274359139531951730,
      74058212732561358302231226437062788676166966415465897661863160754340907,
      69527482577461516518860173554206202456356613986516101597372200712969387,
      73963687121976033656825274437578502336854856229004893497915185913929008);
    Square(25686082838651505011370039260590883329232637451457271664974363710626838, 17987657184548718279063903461,
      74058212732561358302231226437062788676166966415465897661863160754340907,
      73963687121976033656825274437578502336854856229004893497915185913929008,
      6735658735415408594732670035659661457753934591029385551664717708446746);
    SquareTimes(25686082838651505011370039260590883329232637451457271664974363710626838, 35975314369097436558127806922,
      74058212732561358302231226437062788676166966415465897661863160754340907,
      6735658735415408594732670035659661457753934591029385551664717708446746,
      5427462772823755554846812978774875287919247759005353181258267172023260);
    SquareTimes(25686082838651505011370039260590883329232637451457271664974363710626838, 71950628738194873116255613845,
      74058212732561358302231226437062788676166966415465897661863160754340907,
      5427462772823755554846812978774875287919247759005353181258267172023260,
      6551832778087105005839965145676372252403373001439859999461460098003056);
    Square(25686082838651505011370039260590883329232637451457271664974363710626838, 143901257476389746232511227691,
      74058212732561358302231226437062788676166966415465897661863160754340907,
      6551832778087105005839965145676372252403373001439859999461460098003056,
      24062846312816968056614408823131648242741491418530635247796571776991481);
    SquareTimes(25686082838651505011370039260590883329232637451457271664974363710626838, 287802514952779492465022455382,
      74058212732561358302231226437062788676166966415465897661863160754340907,
      24062846312816968056614408823131648242741491418530635247796571776991481,
      25750265679257667255512296476700576758563754890685731949048490897509787);
    SquareTimes(25686082838651505011370039260590883329232637451457271664974363710626838, 575605029905558984930044910765,
      74058212732561358302231226437062788676166966415465897661863160754340907,
      25750265679257667255512296476700576758563754890685731949048490897509787,
      18186090025996518795189365466940014515526868970139684008464777792162694);
  }

  lemma R1Second(b: int, n: nat, m: int)
    requires b == 25686082838651505011370039260590883329232637451457271664974363710626838
    requires n == 75445702479781427272750846543864801
    requires m == 74058212732561358302231226437062788676166966415465897661863160754340907
    ensures IsPower(b, n, m, 8562916886866218785688304546164188478888058893729309188831496247839076)
  {
    hide IsPower;
    R1SecondPart5(25686082838651505011370039260590883329232637451457271664974363710626838,
      1151210059811117969860089821531, 74058212732561358302231226437062788676166966415465897661863160754340907);
    Square(25686082838651505011370039260590883329232637451457271664974363710626838, 1151210059811117969860089821531,
      74058212732561358302231226437062788676166966415465897661863160754340907,
      18186090025996518795189365466940014515526868970139684008464777792162694,
      48945224641715898986804213341660464758441468594296788127861402565914121);
    Square(25686082838651505011370039260590883329232637451457271664974363710626838, 2302420119622235939720179643062,
      74058212732561358302231226437062788676166966415465897661863160754340907,
      48945224641715898986804213341660464758441468594296788127861402565914121,
      71303910472274486575327216527911419617551096534394705922417094370277123);
    SquareTimes(25686082838651505011370039260590883329232637451457271664974363710626838,
      4604840239244471879440359286124, 74058212732561358302231226437062788676166966415465897661863160754340907,
      71303910472274486575327216527911419617551096534394705922417094370277123,
      18640839054008484880616825824606266081379682670048673902741976281949451);
    Square(25686082838651505011370039260590883329232637451457271664974363710626838, 9209680478488943758880718572249,
      74058212732561358302231226437062788676166966415465897661863160754340907,
      18640839054008484880616825824606266081379682670048673902741976281949451,
      66584739412078148898204053822944513660727147130071166298038860247053686);
    Square(25686082838651505011370039260590883329232637451457271664974363710626838, 18419360956977887517761437144498,
      74058212732561358302231226437062788676166966415465897661863160754340907,
      66584739412078148898204053822944513660727147130071166298038860247053686,
      67525416605209221011993544085914442252118700061434637812232245441474780);
    Square(25686082838651505011370039260590883329232637451457271664974363710626838, 36838721913955775035522874288996,
      74058212732561358302231226437062788676166966415465897661863160754340907,
      67525416605209221011993544085914442252118700061434637812232245441474780,
      20648146927548949030872931701505688059182903195167633859707346851606635);
    SquareTimes(25686082838651505011370039260590883329232637451457271664974363710626838,
      73677443827911550071045748577992, 74058212732561358302231226437062788676166966415465897661863160754340907,
      20648146927548949030872931701505688059182903195167633859707346851606635,
      34339185471425933873015059149428317164833786575951261897809691089393772);
    SquareTimes(25686082838651505011370039260590883329232637451457271664974363710626838,
      147354887655823100142091497155985, 74058212732561358302231226437062788676166966415465897661863160754340907,
      34339185471425933873015059149428317164833786575951261897809691089393772,
      61518093599277639365327160103703485008413369384707309285212443060709865);
    SquareTimes(25686082838651505011370039260590883329232637451457271664974363710626838,
      294709775311646200284182994311971, 74058212732561358302231226437062788676166966415465897661863160754340907,
      61518093599277639365327160103703485008413369384707309285212443060709865,
      5830212561099232690122609078539445185373232921156529759053082660244088);
    SquareTimes(25686082838651505011370039260590883329232637451457271664974363710626838,
      589419550623292400568365988623943, 74058212732561358302231226437062788676166966415465897661863160754340907,
      5830212561099232690122609078539445185373232921156529759053082660244088,
      18800850742055141245650043152697582855096144497559731652880274026863102);
    SquareTimes(25686082838651505011370039260590883329232637451457271664974363710626838,
      1178839101246584801136731977247887, 74058212732561358302231226437062788676166966415465897661863160754340907,
      18800850742055141245650043152697582855096144497559731652880274026863102,
      12908696020468720420317789987726848532954769265753315336879186661618973);
    Square(25686082838651505011370039260590883329232637451457271664974363710626838, 2357678202493169602273463954495775,
      74058212732561358302231226437062788676166966415465897661863160754340907,
      12908696020468720420317789987726848532954769265753315336879186661618973,
      18747684543434469228505066862697561580183117404804802116429179606014632);
    Square(25686082838651505011370039260590883329232637451457271664974363710626838, 4715356404986339204546927908991550,
      74058212732561358302231226437062788676166966415465897661863160754340907,
      18747684543434469228505066862697561580183117404804802116429179606014632,
      68058976916763245143316019560374839150594087773410962298618921042351060);
    Square(25686082838651505011370039260590883329232637451457271664974363710626838, 9430712809972678409093855817983100,
      74058212732561358302231226437062788676166966415465897661863160754340907,
      68058976916763245143316019560374839150594087773410962298618921042351060,
      22214956701133756098500036878949395999322567481322174259270898785610196);
    Square(25686082838651505011370039260590883329232637451457271664974363710626838, 18861425619945356818187711635966200,
      74058212732561358302231226437062788676166966415465897661863160754340907,
      22214956701133756098500036878949395999322567481322174259270898785610196,
      70020695665428660585292606760870089643503448878819752308363490229187356);
    SquareTimes(25686082838651505011370039260590883329232637451457271664974363710626838,
      37722851239890713636375423271932400, 74058212732561358302231226437062788676166966415465897661863160754340907,
      70020695665428660585292606760870089643503448878819752308363490229187356,
      8562916886866218785688304546164188478888058893729309188831496247839076);
  }

  lemma R1Order(b: int, n: nat, m: int)
    requires b == 8562916886866218785688304546164188478888058893729309188831496247839076 && n == 353
    requires m == 74058212732561358302231226437062788676166966415465897661863160754340907
    ensures IsPower(b, n, m, 1)
  {
    hide IsPower;
    ZeroPower(8562916886866218785688304546164188478888058893729309188831496247839076,
      74058212732561358302231226437062788676166966415465897661863160754340907);
    SquareTimes(8562916886866218785688304546164188478888058893729309188831496247839076, 0,
      74058212732561358302231226437062788676166966415465897661863160754340907, 1,
      8562916886866218785688304546164188478888058893729309188831496247839076);
    Square(8562916886866218785688304546164188478888058893729309188831496247839076, 1,
      74058212732561358302231226437062788676166966415465897661863160754340907,
      8562916886866218785688304546164188478888058893729309188831496247839076,
      16153155050223087298160014462763671619986142323395781531433756842368703);
    SquareTimes(8562916886866218785688304546164188478888058893729309188831496247839076, 2,
      74058212732561358302231226437062788676166966415465897661863160754340907,
      16153155050223087298160014462763671619986142323395781531433756842368703,
      25171928313862840063030770210551396004168855366508115988049527562160009);
    SquareTimes(8562916886866218785688304546164188478888058893729309188831496247839076, 5,
      74058212732561358302231226437062788676166966415465897661863160754340907,
      25171928313862840063030770210551396004168855366508115988049527562160009,
      53380830016128662912109928654360594796415752176364461903178265429104804);
    Square(8562916886866218785688304546164188478888058893729309188831496247839076, 11,
      74058212732561358302231226437062788676166966415465897661863160754340907,
      53380830016128662912109928654360594796415752176364461903178265429104804,
      44834681646896416774739443742377987341720075798897526609092454803933452);
    Square(8562916886866218785688304546164188478888058893729309188831496247839076, 22,
      74058212732561358302231226437062788676166966415465897661863160754340907,
      44834681646896416774739443742377987341720075798897526609092454803933452,
      67130183245633195639869939918442703710504314834311865919213873480129168);
    Square(8562916886866218785688304546164188478888058893729309188831496247839076, 44,
      74058212732561358302231226437062788676166966415465897661863160754340907,
      67130183245633195639869939918442703710504314834311865919213873480129168,
      38818018837063819385421431524313588415600254480646167217742265151203685);
    Square(8562916886866218785688304546164188478888058893729309188831496247839076, 88,
      74058212732561358302231226437062788676166966415465897661863160754340907,
      38818018837063819385421431524313588415600254480646167217742265151203685,
      1249425937017005171791187917337941369870552391118378404367688045443375);
    SquareTimes(8562916886866218785688304546164188478888058893729309188831496247839076, 176,
      74058212732561358302231226437062788676166966415465897661863160754340907,
      1249425937017005171791187917337941369870552391118378404367688045443375, 1);
  }

  lemma R1Prime()
    ensures Prime(R1)
  {
    hide IsPower, Prime;
    R1First(25686082838651505011370039260590883329232637451457271664974363710626838, 353,
      74058212732561358302231226437062788676166966415465897661863160754340907);
    R1Second(25686082838651505011370039260590883329232637451457271664974363710626838,
      75445702479781427272750846543864801, 74058212732561358302231226437062788676166966415465897661863160754340907);
    R1Order(8562916886866218785688304546164188478888058893729309188831496247839076, 353,
      74058212732561358302231226437062788676166966415465897661863160754340907);
    P353Prime();
    R2Prime();
    PrimeByTwo(74058212732561358302231226437062788676166966415465897661863160754340907, 353,
      75445702479781427272750846543864801, 25686082838651505011370039260590883329232637451457271664974363710626838,
      69490809710348678725736597923071784769591275419387514694139338586948360,
      70463328703800545008217672123162676565183935400628861884889913886334520,
      66117633491858138461393741777649859022484251587227054915412604379442197,
      8562916886866218785688304546164188478888058893729309188831496247839076,
      37940283535957283147790493383286696582099159842122763948555891970476459,
      4386812516739286907093083275457056104889941688880599415971985667035232);
  }

  lemma POrderPart1(b: int, n: nat, m: int)
    requires b == 427094198651976259540344842774561673889945192655078505504941250475370961481 && n == 703224
    requires m == 57896044618658097711785492504343953926634992332820282019728792003956564819949
    ensures IsPower(b, n, m, 13424463060823658616402346012007364081521411047400928553282893951403917242422)
  {
    hide IsPower;
    ZeroPower(427094198651976259540344842774561673889945192655078505504941250475370961481,
      57896044618658097711785492504343953926634992332820282019728792003956564819949);
    SquareTimes(427094198651976259540344842774561673889945192655078505504941250475370961481, 0,
      57896044618658097711785492504343953926634992332820282019728792003956564819949, 1,
      427094198651976259540344842774561673889945192655078505504941250475370961481);
    Square(427094198651976259540344842774561673889945192655078505504941250475370961481, 1,
      57896044618658097711785492504343953926634992332820282019728792003956564819949,
      427094198651976259540344842774561673889945192655078505504941250475370961481,
      50914264381064792893419427774930386716764681640450898677223111048785958120942);
    SquareTimes(427094198651976259540344842774561673889945192655078505504941250475370961481, 2,
      57896044618658097711785492504343953926634992332820282019728792003956564819949,
      50914264381064792893419427774930386716764681640450898677223111048785958120942,
      23595339778929221574950158379684636989810540296840158120950850987015741184541);
    Square(427094198651976259540344842774561673889945192655078505504941250475370961481, 5,
      57896044618658097711785492504343953926634992332820282019728792003956564819949,
      23595339778929221574950158379684636989810540296840158120950850987015741184541,
      6282790753020112160267437030074574253813645774790429746783168155208757012557);
    SquareTimes(427094198651976259540344842774561673889945192655078505504941250475370961481, 10,
      57896044618658097711785492504343953926634992332820282019728792003956564819949,
      6282790753020112160267437030074574253813645774790429746783168155208757012557,
      10508006393415927859711238951609522824270293471178113287342542748014018336062);
    Square(427094198651976259540344842774561673889945192655078505504941250475370961481, 21,
      57896044618658097711785492504343953926634992332820282019728792003956564819949,
      10508006393415927859711238951609522824270293471178113287342542748014018336062,
      14765951865405134974180171522516868216084625300557217921428897807662836440071);
    SquareTimes(427094198651976259540344842774561673889945192655078505504941250475370961481, 42,
      57896044618658097711785492504343953926634992332820282019728792003956564819949,
      14765951865405134974180171522516868216084625300557217921428897807662836440071,
      42964186242273528919480151297187199593800320547943492549527490510683516048655);
    SquareTimes(427094198651976259540344842774561673889945192655078505504941250475370961481, 85,
      57896044618658097711785492504343953926634992332820282019728792003956564819949,
      42964186242273528919480151297187199593800320547943492549527490510683516048655,
      14671606099065127063022213855609452736378076549275320985106317603993266282337);
    SquareTimes(427094198651976259540344842774561673889945192655078505504941250475370961481, 171,
      57896044618658097711785492504343953926634992332820282019728792003956564819949,
      14671606099065127063022213855609452736378076549275320985106317603993266282337,
      30080288456047404762753310383100508677641348610746232471109364162034865714442);
    Square(427094198651976259540344842774561673889945192655078505504941250475370961481, 343,
      57896044618658097711785492504343953926634992332820282019728792003956564819949,
      30080288456047404762753310383100508677641348610746232471109364162034865714442,
      29073007563727784458119572883955390856799487653336218899532319023272387176585);
    SquareTimes(427094198651976259540344842774561673889945192655078505504941250475370961481, 686,
      57896044618658097711785492504343953926634992332820282019728792003956564819949,
      29073007563727784458119572883955390856799487653336218899532319023272387176585,
      4157821615592735047075923612481559027157523199671150384308970709873844682713);
    Square(427094198651976259540344842774561673889945192655078505504941250475370961481, 1373,
      57896044618658097711785492504343953926634992332820282019728792003956564819949,
      4157821615592735047075923612481559027157523199671150384308970709873844682713,
      44402186579791228141035588085027747096280442063129798053946789133901316676614);
    SquareTimes(427094198651976259540344842774561673889945192655078505504941250475370961481, 2746,
      57896044618658097711785492504343953926634992332820282019728792003956564819949,
      44402186579791228141035588085027747096280442063129798053946789133901316676614,
      40440106144718400821540455593356056199791998023367103711011080090474654244305);
    SquareTimes(427094198651976259540344842774561673889945192655078505504941250475370961481, 5493,
      57896044618658097711785492504343953926634992332820282019728792003956564819949,
      40440106144718400821540455593356056199791998023367103711011080090474654244305,
      12268677264589530759739771253904236518094501236130045080168379729096466449986);
    SquareTimes(427094198651976259540344842774561673889945192655078505504941250475370961481, 10987,
      57896044618658097711785492504343953926634992332820282019728792003956564819949,
      12268677264589530759739771253904236518094501236130045080168379729096466449986,
      26756656424621257001560693066733273021327367118466688039513283271317816864704);
    SquareTimes(427094198651976259540344842774561673889945192655078505504941250475370961481, 21975,
      57896044618658097711785492504343953926634992332820282019728792003956564819949,
      26756656424621257001560693066733273021327367118466688039513283271317816864704,
      43363039523573767831230147508338943781674155541484516688340096495548809479826);
    SquareTimes(427094198651976259540344842774561673889945192655078505504941250475370961481, 43951,
      57896044618658097711785492504343953926634992332820282019728792003956564819949,
      43363039523573767831230147508338943781674155541484516688340096495548809479826,
      8545572691081926495204026034762269619343639667138092320277418082851692275434);
    Square(427094198651976259540344842774561673889945192655078505504941250475370961481, 87903,
      57896044618658097711785492504343953926634992332820282019728792003956564819949,
      8545572691081926495204026034762269619343639667138092320277418082851692275434,
      1208086653455915629473244906784075529826142873150602021569206610713968222662);
    Square(427094198651976259540344842774561673889945192655078505504941250475370961481, 175806,
      57896044618658097711785492504343953926634992332820282019728792003956564819949,
      1208086653455915629473244906784075529826142873150602021569206610713968222662,
      34475720864833310237200659141354986539800323128223961765242012503204121900777);
    Square(427094198651976259540344842774561673889945192655078505504941250475370961481, 351612,
      57896044618658097711785492504343953926634992332820282019728792003956564819949,
      34475720864833310237200659141354986539800323128223961765242012503204121900777,
      13424463060823658616402346012007364081521411047400928553282893951403917242422);
  }

  lemma POrderPart2(b: int, n: nat, m: int)
    requires b == 427094198651976259540344842774561673889945192655078505504941250475370961481 && n == 737384622857
    requires m == 57896044618658097711785492504343953926634992332820282019728792003956564819949
    ensures IsPower(b, n, m, 931337745902142669503822979629507155062445057196598851932773263800614343851)
  {
    hide IsPower;
    POrderPart1(427094198651976259540344842774561673889945192655078505504941250475370961481, 703224,
      57896044618658097711785492504343953926634992332820282019728792003956564819949);
    SquareTimes(427094198651976259540344842774561673889945192655078505504941250475370961481, 703224,
      57896044618658097711785492504343953926634992332820282019728792003956564819949,
      13424463060823658616402346012007364081521411047400928553282893951403917242422,
      20667888110140844433508998564889247531943008642238753068069359680637067700492);
    SquareTimes(427094198651976259540344842774561673889945192655078505504941250475370961481, 1406449,
      57896044618658097711785492504343953926634992332820282019728792003956564819949,
      20667888110140844433508998564889247531943008642238753068069359680637067700492,
      30171440387007391016384130743813133467097552389945945000264696127025945058384);
    Square(427094198651976259540344842774561673889945192655078505504941250475370961481, 2812899,
      57896044618658097711785492504343953926634992332820282019728792003956564819949,
      30171440387007391016384130743813133467097552389945945000264696127025945058384,
      6860739831148267926543213309777121968285499594488426432714814623500892976924);
    Square(427094198651976259540344842774561673889945192655078505504941250475370961481, 5625798,
      57896044618658097711785492504343953926634992332820282019728792003956564819949,
      6860739831148267926543213309777121968285499594488426432714814623500892976924,
      48272500973152295566946354058903573395325749327719782344882181635352865030830);
    Square(427094198651976259540344842774561673889945192655078505504941250475370961481, 11251596,
      57896044618658097711785492504343953926634992332820282019728792003956564819949,
      48272500973152295566946354058903573395325749327719782344882181635352865030830,
      35129596911472064201348263210396707873144068759916083168489364029796608481492);
    SquareTimes(427094198651976259540344842774561673889945192655078505504941250475370961481, 22503192,
      57896044618658097711785492504343953926634992332820282019728792003956564819949,
      35129596911472064201348263210396707873144068759916083168489364029796608481492,
      13033836636409619576203285041929315740509890397965984269460621985817963461749);
    SquareTimes(427094198651976259540344842774561673889945192655078505504941250475370961481, 45006385,
      57896044618658097711785492504343953926634992332820282019728792003956564819949,
      13033836636409619576203285041929315740509890397965984269460621985817963461749,
      2647212489887212330479187491196257483428837201753352000475138849885439254322);
    Square(427094198651976259540344842774561673889945192655078505504941250475370961481, 90012771,
      57896044618658097711785492504343953926634992332820282019728792003956564819949,
      2647212489887212330479187491196257483428837201753352000475138849885439254322,
      21581212595436810779393696112502495100442804460030777336590753122133947916047);
    SquareTimes(427094198651976259540344842774561673889945192655078505504941250475370961481, 180025542,
      57896044618658097711785492504343953926634992332820282019728792003956564819949,
      21581212595436810779393696112502495100442804460030777336590753122133947916047,
      49923426778029348217643188356929138802844597096266759134841133797411613698270);
    Square(427094198651976259540344842774561673889945192655078505504941250475370961481, 360051085,
      57896044618658097711785492504343953926634992332820282019728792003956564819949,
      49923426778029348217643188356929138802844597096266759134841133797411613698270,
      26552313240485186797580909783909855891329397417828066856434454382084404231310);
    SquareTimes(427094198651976259540344842774561673889945192655078505504941250475370961481, 720102170,
      57896044618658097711785492504343953926634992332820282019728792003956564819949,
      26552313240485186797580909783909855891329397417828066856434454382084404231310,
      54812548491934986632547004046817279014484813925803022552634613606886414395818);
    SquareTimes(427094198651976259540344842774561673889945192655078505504941250475370961481, 1440204341,
      57896044618658097711785492504343953926634992332820282019728792003956564819949,
      54812548491934986632547004046817279014484813925803022552634613606886414395818,
      39113827730608986314749684476490932209953939012363727335166725308773928373370);
    Square(427094198651976259540344842774561673889945192655078505504941250475370961481, 2880408683,
      57896044618658097711785492504343953926634992332820282019728792003956564819949,
      39113827730608986314749684476490932209953939012363727335166725308773928373370,
      27143910601110349143206876423926992600671392057274617250910455765128494361521);
    Square(427094198651976259540344842774561673889945192655078505504941250475370961481, 5760817366,
      57896044618658097711785492504343953926634992332820282019728792003956564819949,
      27143910601110349143206876423926992600671392057274617250910455765128494361521,
      13686208184444961691204503322476012798334868011838531760956098599325890290764);
    Square(427094198651976259540344842774561673889945192655078505504941250475370961481, 11521634732,
      57896044618658097711785492504343953926634992332820282019728792003956564819949,
      13686208184444961691204503322476012798334868011838531760956098599325890290764,
      16003906165003099325819955059704003423519608636039548241417546982990913639148);
    Square(427094198651976259540344842774561673889945192655078505504941250475370961481, 23043269464,
      57896044618658097711785492504343953926634992332820282019728792003956564819949,
      16003906165003099325819955059704003423519608636039548241417546982990913639148,
      18855187050262642606064855263681331663124173866884721516279807491556334298332);
    SquareTimes(427094198651976259540344842774561673889945192655078505504941250475370961481, 46086538928,
      57896044618658097711785492504343953926634992332820282019728792003956564819949,
      18855187050262642606064855263681331663124173866884721516279807491556334298332,
      53898625881767212425634536431051062643554699243789767559324742680717367093184);
    Square(427094198651976259540344842774561673889945192655078505504941250475370961481, 92173077857,
      57896044618658097711785492504343953926634992332820282019728792003956564819949,
      53898625881767212425634536431051062643554699243789767559324742680717367093184,
      9328384199961946514849016524349611796790993897360035376919041506704867840509);
    Square(427094198651976259540344842774561673889945192655078505504941250475370961481, 184346155714,
      57896044618658097711785492504343953926634992332820282019728792003956564819949,
      9328384199961946514849016524349611796790993897360035376919041506704867840509,
      40793490734728578308357446536170486249797246325341988172174020285991597590912);
    SquareTimes(427094198651976259540344842774561673889945192655078505504941250475370961481, 368692311428,
      57896044618658097711785492504343953926634992332820282019728792003956564819949,
      40793490734728578308357446536170486249797246325341988172174020285991597590912,
      931337745902142669503822979629507155062445057196598851932773263800614343851);
  }

  lemma POrderPart3(b: int, n: nat, m: int)
    requires b == 427094198651976259540344842774561673889945192655078505504941250475370961481 && n == 773203818297228559
    requires m == 57896044618658097711785492504343953926634992332820282019728792003956564819949
    ensures IsPower(b, n, m, 14715464329062704689330619358469326494056273169863050137747010548928835308075)
  {
    hide IsPower;
    POrderPart2(427094198651976259540344842774561673889945192655078505504941250475370961481, 737384622857,
      57896044618658097711785492504343953926634992332820282019728792003956564819949);
    Square(427094198651976259540344842774561673889945192655078505504941250475370961481, 737384622857,
      57896044618658097711785492504343953926634992332820282019728792003956564819949,
      931337745902142669503822979629507155062445057196598851932773263800614343851,
      23434834171403495094816902536210245963119218545457613491030286843321178849090);
    SquareTimes(427094198651976259540344842774561673889945192655078505504941250475370961481, 1474769245714,
      57896044618658097711785492504343953926634992332820282019728792003956564819949,
      23434834171403495094816902536210245963119218545457613491030286843321178849090,
      16748802369321623596929648019124830412481028278176832388809779744939476061453);
    Square(427094198651976259540344842774561673889945192655078505504941250475370961481, 2949538491429,
      57896044618658097711785492504343953926634992332820282019728792003956564819949,
      16748802369321623596929648019124830412481028278176832388809779744939476061453,
      13465579647715049664354756374194433948231013056396513548986313105752577436948);
    Square(427094198651976259540344842774561673889945192655078505504941250475370961481, 5899076982858,
      57896044618658097711785492504343953926634992332820282019728792003956564819949,
      13465579647715049664354756374194433948231013056396513548986313105752577436948,
      47350905953550313082384582914768386779591231700435899029508418642693787469187);
    SquareTimes(427094198651976259540344842774561673889945192655078505504941250475370961481, 11798153965716,
      57896044618658097711785492504343953926634992332820282019728792003956564819949,
      47350905953550313082384582914768386779591231700435899029508418642693787469187,
      18286491706746720111909911167239461845430351747451606516454706886817732371435);
    SquareTimes(427094198651976259540344842774561673889945192655078505504941250475370961481, 23596307931433,
      57896044618658097711785492504343953926634992332820282019728792003956564819949,
      18286491706746720111909911167239461845430351747451606516454706886817732371435,
      2150482011269721680385419428221410907065699691468881212954920958681876326541);
    SquareTimes(427094198651976259540344842774561673889945192655078505504941250475370961481, 47192615862867,
      57896044618658097711785492504343953926634992332820282019728792003956564819949,
      2150482011269721680385419428221410907065699691468881212954920958681876326541,
      615639248898527530914655200055543362126431148332174501206200115354439136715);
    SquareTimes(427094198651976259540344842774561673889945192655078505504941250475370961481, 94385231725735,
      57896044618658097711785492504343953926634992332820282019728792003956564819949,
      615639248898527530914655200055543362126431148332174501206200115354439136715,
      32169130630667647042736653048045261217567817499652620705188996912552536924466);
    SquareTimes(427094198651976259540344842774561673889945192655078505504941250475370961481, 188770463451471,
      57896044618658097711785492504343953926634992332820282019728792003956564819949,
      32169130630667647042736653048045261217567817499652620705188996912552536924466,
      10655145512141068181299758743976465767743253949402457322145616363997767470497);
    SquareTimes(427094198651976259540344842774561673889945192655078505504941250475370961481, 377540926902943,
      57896044618658097711785492504343953926634992332820282019728792003956564819949,
      10655145512141068181299758743976465767743253949402457322145616363997767470497,
      52954004240388556051630569594327453169900630189205355599216072741077851524215);
    Square(427094198651976259540344842774561673889945192655078505504941250475370961481, 755081853805887,
      57896044618658097711785492504343953926634992332820282019728792003956564819949,
      52954004240388556051630569594327453169900630189205355599216072741077851524215,
      40845676532426436603756308850622544324731792188582390305552561790231376610764);
    SquareTimes(427094198651976259540344842774561673889945192655078505504941250475370961481, 1510163707611774,
      57896044618658097711785492504343953926634992332820282019728792003956564819949,
      40845676532426436603756308850622544324731792188582390305552561790231376610764,
      39194011694532861197585445397462742577184241789917629493980119483213449050725);
    Square(427094198651976259540344842774561673889945192655078505504941250475370961481, 3020327415223549,
      57896044618658097711785492504343953926634992332820282019728792003956564819949,
      39194011694532861197585445397462742577184241789917629493980119483213449050725,
      6747319875131162801097707974104998613051739066779536586996007209040751155101);
    Square(427094198651976259540344842774561673889945192655078505504941250475370961481, 6040654830447098,
      57896044618658097711785492504343953926634992332820282019728792003956564819949,
      6747319875131162801097707974104998613051739066779536586996007209040751155101,
      49447354364721713194753236194045317723599705392660705943689883380473733771831);
    Square(427094198651976259540344842774561673889945192655078505504941250475370961481, 12081309660894196,
      57896044618658097711785492504343953926634992332820282019728792003956564819949,
      49447354364721713194753236194045317723599705392660705943689883380473733771831,
      20680623121840630987818318708736189835702564481958486263478455679256959099996);
    Square(427094198651976259540344842774561673889945192655078505504941250475370961481, 24162619321788392,
      57896044618658097711785492504343953926634992332820282019728792003956564819949,
      20680623121840630987818318708736189835702564481958486263478455679256959099996,
      56654826113137596204768014569950329153426965729478432077505057568350283905680);
    SquareTimes(427094198651976259540344842774561673889945192655078505504941250475370961481, 48325238643576784,
      57896044618658097711785492504343953926634992332820282019728792003956564819949,
      56654826113137596204768014569950329153426965729478432077505057568350283905680,
      33210770095852405204686202096149686871531368703740255034108234926298140686860);
    SquareTimes(427094198651976259540344842774561673889945192655078505504941250475370961481, 96650477287153569,
      57896044618658097711785492504343953926634992332820282019728792003956564819949,
      33210770095852405204686202096149686871531368703740255034108234926298140686860,
      4014153111400426327589115196603232097915909705957950895536025490367469074560);
    SquareTimes(427094198651976259540344842774561673889945192655078505504941250475370961481, 193300954574307139,
      57896044618658097711785492504343953926634992332820282019728792003956564819949,
      4014153111400426327589115196603232097915909705957950895536025490367469074560,
      56808428832765546586786594999807077741969289592272847145634860535062554041319);
    SquareTimes(427094198651976259540344842774561673889945192655078505504941250475370961481, 386601909148614279,
      57896044618658097711785492504343953926634992332820282019728792003956564819949,
      56808428832765546586786594999807077741969289592272847145634860535062554041319,
      14715464329062704689330619358469326494056273169863050137747010548928835308075);
  }

  lemma POrderPart4(b: int, n: nat, m: int)
    requires b == 427094198651976259540344842774561673889945192655078505504941250475370961481
    requires n == 810762966974834733689900
    requires m == 57896044618658097711785492504343953926634992332820282019728792003956564819949
    ensures IsPower(b, n, m, 26375387592200140890173505680436436792661476440963051257229024838570486475255)
  {
    hide IsPower;
    POrderPart3(427094198651976259540344842774561673889945192655078505504941250475370961481, 773203818297228559,
      57896044618658097711785492504343953926634992332820282019728792003956564819949);
    Square(427094198651976259540344842774561673889945192655078505504941250475370961481, 773203818297228559,
      57896044618658097711785492504343953926634992332820282019728792003956564819949,
      14715464329062704689330619358469326494056273169863050137747010548928835308075,
      8337545127217764491035930961634423021897936807135908373393362219783259031418);
    Square(427094198651976259540344842774561673889945192655078505504941250475370961481, 1546407636594457118,
      57896044618658097711785492504343953926634992332820282019728792003956564819949,
      8337545127217764491035930961634423021897936807135908373393362219783259031418,
      8144196400714614890138705492322639981412853164412296909643807360163335422300);
    SquareTimes(427094198651976259540344842774561673889945192655078505504941250475370961481, 3092815273188914236,
      57896044618658097711785492504343953926634992332820282019728792003956564819949,
      8144196400714614890138705492322639981412853164412296909643807360163335422300,
      57117514386047042190818328680644543877908671763417110075304059358976639282918);
    SquareTimes(427094198651976259540344842774561673889945192655078505504941250475370961481, 6185630546377828473,
      57896044618658097711785492504343953926634992332820282019728792003956564819949,
      57117514386047042190818328680644543877908671763417110075304059358976639282918,
      29194840390136022116418100174159504709805301889691385347983575010945946447477);
    Square(427094198651976259540344842774561673889945192655078505504941250475370961481, 12371261092755656947,
      57896044618658097711785492504343953926634992332820282019728792003956564819949,
      29194840390136022116418100174159504709805301889691385347983575010945946447477,
      30492838542768468573451822991558255628888822711841750278965777210605666241093);
    Square(427094198651976259540344842774561673889945192655078505504941250475370961481, 24742522185511313894,
      57896044618658097711785492504343953926634992332820282019728792003956564819949,
      30492838542768468573451822991558255628888822711841750278965777210605666241093,
      51457087697392379250044849781510961278014191262771804366839589940944412114896);
    SquareTimes(427094198651976259540344842774561673889945192655078505504941250475370961481, 49485044371022627788,
      57896044618658097711785492504343953926634992332820282019728792003956564819949,
      51457087697392379250044849781510961278014191262771804366839589940944412114896,
      47110194911469156145231840522974075674518002055742112016483809358682030910459);
    Square(427094198651976259540344842774561673889945192655078505504941250475370961481, 98970088742045255577,
      57896044618658097711785492504343953926634992332820282019728792003956564819949,
      47110194911469156145231840522974075674518002055742112016483809358682030910459,
      40494757217524916096333893757326246094581674999797029203460448369644634437933);
    SquareTimes(427094198651976259540344842774561673889945192655078505504941250475370961481, 197940177484090511154,
      57896044618658097711785492504343953926634992332820282019728792003956564819949,
      40494757217524916096333893757326246094581674999797029203460448369644634437933,
      41771253591116585040104897672957184724820342745022452735366869598298227471994);
    SquareTimes(427094198651976259540344842774561673889945192655078505504941250475370961481, 395880354968181022309,
      57896044618658097711785492504343953926634992332820282019728792003956564819949,
      41771253591116585040104897672957184724820342745022452735366869598298227471994,
      48115563690958252294366590751518736589017891715099409102972364313245174885881);
    Square(427094198651976259540344842774561673889945192655078505504941250475370961481, 791760709936362044619,
      57896044618658097711785492504343953926634992332820282019728792003956564819949,
      48115563690958252294366590751518736589017891715099409102972364313245174885881,
      4449904825675892882538044621211144111288264312374315924813487311345437679786);
    Square(427094198651976259540344842774561673889945192655078505504941250475370961481, 1583521419872724089238,
      57896044618658097711785492504343953926634992332820282019728792003956564819949,
      4449904825675892882538044621211144111288264312374315924813487311345437679786,
      13749678231053669407885903205390060755118682647629435216465254709945654881336);
    Square(427094198651976259540344842774561673889945192655078505504941250475370961481, 3167042839745448178476,
      57896044618658097711785492504343953926634992332820282019728792003956564819949,
      13749678231053669407885903205390060755118682647629435216465254709945654881336,
      22493727517867778858110474721550285763551410488176906280050856999598203094113);
    Square(427094198651976259540344842774561673889945192655078505504941250475370961481, 6334085679490896356952,
      57896044618658097711785492504343953926634992332820282019728792003956564819949,
      22493727517867778858110474721550285763551410488176906280050856999598203094113,
      18236932998569906468569683699579568805780828746576787585565551316487316073697);
    SquareTimes(427094198651976259540344842774561673889945192655078505504941250475370961481, 12668171358981792713904,
      57896044618658097711785492504343953926634992332820282019728792003956564819949,
      18236932998569906468569683699579568805780828746576787585565551316487316073697,
      23217560225020900800868158653767406622250201998932074277285362442830949162511);
    Square(427094198651976259540344842774561673889945192655078505504941250475370961481, 25336342717963585427809,
      57896044618658097711785492504343953926634992332820282019728792003956564819949,
      23217560225020900800868158653767406622250201998932074277285362442830949162511,
      36679754671100784502224032698518219776846645840381363804541628501931343845944);
    SquareTimes(427094198651976259540344842774561673889945192655078505504941250475370961481, 50672685435927170855618,
      57896044618658097711785492504343953926634992332820282019728792003956564819949,
      36679754671100784502224032698518219776846645840381363804541628501931343845944,
      54360825203008715428828608923324725907648678980104829089057009703012201395806);
    SquareTimes(427094198651976259540344842774561673889945192655078505504941250475370961481, 101345370871854341711237,
      57896044618658097711785492504343953926634992332820282019728792003956564819949,
      54360825203008715428828608923324725907648678980104829089057009703012201395806,
      36112177499211997823760114083560223009464162657728499607171739960991460023132);
    Square(427094198651976259540344842774561673889945192655078505504941250475370961481, 202690741743708683422475,
      57896044618658097711785492504343953926634992332820282019728792003956564819949,
      36112177499211997823760114083560223009464162657728499607171739960991460023132,
      4017917673372805378073374664414954629762420211306094109864538167972568148690);
    Square(427094198651976259540344842774561673889945192655078505504941250475370961481, 405381483487417366844950,
      57896044618658097711785492504343953926634992332820282019728792003956564819949,
      4017917673372805378073374664414954629762420211306094109864538167972568148690,
      26375387592200140890173505680436436792661476440963051257229024838570486475255);
  }

  lemma POrderPart5(b: int, n: nat, m: int)
    requires b == 427094198651976259540344842774561673889945192655078505504941250475370961481
    requires n == 850146588858604305713621412779
    requires m == 57896044618658097711785492504343953926634992332820282019728792003956564819949
    ensures IsPower(b, n, m, 52811916541552230674351750521636694425773201333048980882767612662244023622987)
  {
    hide IsPower;
    POrderPart4(427094198651976259540344842774561673889945192655078505504941250475370961481, 810762966974834733689900,
      57896044618658097711785492504343953926634992332820282019728792003956564819949);
    SquareTimes(427094198651976259540344842774561673889945192655078505504941250475370961481, 810762966974834733689900,
      57896044618658097711785492504343953926634992332820282019728792003956564819949,
      26375387592200140890173505680436436792661476440963051257229024838570486475255,
      33931685941557301511288560371654561991362058332413347338498451496995116694053);
    SquareTimes(427094198651976259540344842774561673889945192655078505504941250475370961481, 1621525933949669467379801,
      57896044618658097711785492504343953926634992332820282019728792003956564819949,
      33931685941557301511288560371654561991362058332413347338498451496995116694053,
      14922624575515049999085843965852871933967550605227272973617535814066968361277);
    Square(427094198651976259540344842774561673889945192655078505504941250475370961481, 3243051867899338934759603,
      57896044618658097711785492504343953926634992332820282019728792003956564819949,
      14922624575515049999085843965852871933967550605227272973617535814066968361277,
      30762366868159611029834373232311943908139496064227948109312421947196664777330);
    Square(427094198651976259540344842774561673889945192655078505504941250475370961481, 6486103735798677869519206,
      57896044618658097711785492504343953926634992332820282019728792003956564819949,
      30762366868159611029834373232311943908139496064227948109312421947196664777330,
      51891996475240217344912424168125591879105831540732490679134744077936660996177);
    SquareTimes(427094198651976259540344842774561673889945192655078505504941250475370961481, 12972207471597355739038412,
      57896044618658097711785492504343953926634992332820282019728792003956564819949,
      51891996475240217344912424168125591879105831540732490679134744077936660996177,
      25870209673725791005099146413977272964973700726988415966429102470849746230763);
    Square(427094198651976259540344842774561673889945192655078505504941250475370961481, 25944414943194711478076825,
      57896044618658097711785492504343953926634992332820282019728792003956564819949,
      25870209673725791005099146413977272964973700726988415966429102470849746230763,
      16586492654914733038421171950010917443393386346348609537740207997284538925919);
    SquareTimes(427094198651976259540344842774561673889945192655078505504941250475370961481, 51888829886389422956153650,
      57896044618658097711785492504343953926634992332820282019728792003956564819949,
      16586492654914733038421171950010917443393386346348609537740207997284538925919,
      9360744354850339084706117253892022091945542932908441168822213991476468782158);
    Square(427094198651976259540344842774561673889945192655078505504941250475370961481, 103777659772778845912307301,
      57896044618658097711785492504343953926634992332820282019728792003956564819949,
      9360744354850339084706117253892022091945542932908441168822213991476468782158,
      21699744896966610672265588861461956356733168456234506605561573610781270510450);
    SquareTimes(427094198651976259540344842774561673889945192655078505504941250475370961481,
      207555319545557691824614602, 57896044618658097711785492504343953926634992332820282019728792003956564819949,
      21699744896966610672265588861461956356733168456234506605561573610781270510450,
      13161885828497315930338179622069594602816986716662520367521160593352437861239);
    Square(427094198651976259540344842774561673889945192655078505504941250475370961481, 415110639091115383649229205,
      57896044618658097711785492504343953926634992332820282019728792003956564819949,
      13161885828497315930338179622069594602816986716662520367521160593352437861239,
      34776894348296133375661138312485814248513926308629945899214160426335025692184);
    SquareTimes(427094198651976259540344842774561673889945192655078505504941250475370961481,
      830221278182230767298458410, 57896044618658097711785492504343953926634992332820282019728792003956564819949,
      34776894348296133375661138312485814248513926308629945899214160426335025692184,
      6534086500411352515605416736540961252281407838113646525919276315765372299397);
    SquareTimes(427094198651976259540344842774561673889945192655078505504941250475370961481,
      1660442556364461534596916821, 57896044618658097711785492504343953926634992332820282019728792003956564819949,
      6534086500411352515605416736540961252281407838113646525919276315765372299397,
      8297162732913663049130402952361943475440129122795872372081970123405835636598);
    SquareTimes(427094198651976259540344842774561673889945192655078505504941250475370961481,
      3320885112728923069193833643, 57896044618658097711785492504343953926634992332820282019728792003956564819949,
      8297162732913663049130402952361943475440129122795872372081970123405835636598,
      17857118941885755913934996461555689516774609490124423633927675041538817982329);
    Square(427094198651976259540344842774561673889945192655078505504941250475370961481, 6641770225457846138387667287,
      57896044618658097711785492504343953926634992332820282019728792003956564819949,
      17857118941885755913934996461555689516774609490124423633927675041538817982329,
      32294338397354689586334010135233411745826965615842880175415626416136535543217);
    SquareTimes(427094198651976259540344842774561673889945192655078505504941250475370961481,
      13283540450915692276775334574, 57896044618658097711785492504343953926634992332820282019728792003956564819949,
      32294338397354689586334010135233411745826965615842880175415626416136535543217,
      47593925382793755308766976827223026976344739686260179654880475474688785635794);
    Square(427094198651976259540344842774561673889945192655078505504941250475370961481, 26567080901831384553550669149,
      57896044618658097711785492504343953926634992332820282019728792003956564819949,
      47593925382793755308766976827223026976344739686260179654880475474688785635794,
      1066350097371616244608709201357086835961572863019353798640477471761230210929);
    SquareTimes(427094198651976259540344842774561673889945192655078505504941250475370961481,
      53134161803662769107101338298, 57896044618658097711785492504343953926634992332820282019728792003956564819949,
      1066350097371616244608709201357086835961572863019353798640477471761230210929,
      39079945980709552727829154126448901845503137050084226364366802750329737593555);
    Square(427094198651976259540344842774561673889945192655078505504941250475370961481, 106268323607325538214202676597,
      57896044618658097711785492504343953926634992332820282019728792003956564819949,
      39079945980709552727829154126448901845503137050084226364366802750329737593555,
      6052533470867388388243386427431353180621175833394532827112508014776918427803);
    SquareTimes(427094198651976259540344842774561673889945192655078505504941250475370961481,
      212536647214651076428405353194, 57896044618658097711785492504343953926634992332820282019728792003956564819949,
      6052533470867388388243386427431353180621175833394532827112508014776918427803,
      37327648956835527861954850602035973830915837589063758778108050188192798900951);
    SquareTimes(427094198651976259540344842774561673889945192655078505504941250475370961481,
      425073294429302152856810706389, 57896044618658097711785492504343953926634992332820282019728792003956564819949,
      37327648956835527861954850602035973830915837589063758778108050188192798900951,
      52811916541552230674351750521636694425773201333048980882767612662244023622987);
  }

  lemma POrderPart6(b: int, n: nat, m: int)
    requires b == 427094198651976259540344842774561673889945192655078505504941250475370961481
    requires n == 891443309558999868467966286526702811
    requires m == 57896044618658097711785492504343953926634992332820282019728792003956564819949
    ensures IsPower(b, n, m, 42532873960830155040291175100454154608398784018656757614686213500177675678669)
  {
    hide IsPower;
    POrderPart5(427094198651976259540344842774561673889945192655078505504941250475370961481,
      850146588858604305713621412779, 57896044618658097711785492504343953926634992332820282019728792003956564819949);
    SquareTimes(427094198651976259540344842774561673889945192655078505504941250475370961481,
      850146588858604305713621412779, 57896044618658097711785492504343953926634992332820282019728792003956564819949,
      52811916541552230674351750521636694425773201333048980882767612662244023622987,
      16377375484855541393792209246567930856866296267439460388755801836372965386150);
    Square(427094198651976259540344842774561673889945192655078505504941250475370961481, 1700293177717208611427242825559,
      57896044618658097711785492504343953926634992332820282019728792003956564819949,
      16377375484855541393792209246567930856866296267439460388755801836372965386150,
      6765096263557914111299396324714108147777033004476395758908326340511706462976);
    Square(427094198651976259540344842774561673889945192655078505504941250475370961481, 3400586355434417222854485651118,
      57896044618658097711785492504343953926634992332820282019728792003956564819949,
      6765096263557914111299396324714108147777033004476395758908326340511706462976,
      4316640957919633527417326022940494293136556844104967943592883887724232564841);
    Square(427094198651976259540344842774561673889945192655078505504941250475370961481, 6801172710868834445708971302236,
      57896044618658097711785492504343953926634992332820282019728792003956564819949,
      4316640957919633527417326022940494293136556844104967943592883887724232564841,
      50756872667639136851086174897902427086064480639904915940823270431555292184292);
    Square(427094198651976259540344842774561673889945192655078505504941250475370961481,
      13602345421737668891417942604472, 57896044618658097711785492504343953926634992332820282019728792003956564819949,
      50756872667639136851086174897902427086064480639904915940823270431555292184292,
      28837556289107418080017732960867764419496095181069077421582257181425637805768);
    SquareTimes(427094198651976259540344842774561673889945192655078505504941250475370961481,
      27204690843475337782835885208944, 57896044618658097711785492504343953926634992332820282019728792003956564819949,
      28837556289107418080017732960867764419496095181069077421582257181425637805768,
      30120870554414790599917219396157085023656965128991068650241534225007351359807);
    SquareTimes(427094198651976259540344842774561673889945192655078505504941250475370961481,
      54409381686950675565671770417889, 57896044618658097711785492504343953926634992332820282019728792003956564819949,
      30120870554414790599917219396157085023656965128991068650241534225007351359807,
      1413649219280934531446496131273304719275850685815183126542350847550491520781);
    Square(427094198651976259540344842774561673889945192655078505504941250475370961481,
      108818763373901351131343540835779, 57896044618658097711785492504343953926634992332820282019728792003956564819949,
      1413649219280934531446496131273304719275850685815183126542350847550491520781,
      35030720980695644378816764561547296219421716289698107714707623755379142404113);
    Square(427094198651976259540344842774561673889945192655078505504941250475370961481,
      217637526747802702262687081671558, 57896044618658097711785492504343953926634992332820282019728792003956564819949,
      35030720980695644378816764561547296219421716289698107714707623755379142404113,
      9083174125231035012971863669220518592960513462494751382030832059112884571091);
    SquareTimes(427094198651976259540344842774561673889945192655078505504941250475370961481,
      435275053495605404525374163343116, 57896044618658097711785492504343953926634992332820282019728792003956564819949,
      9083174125231035012971863669220518592960513462494751382030832059112884571091,
      28820793180904676690926483884028651454895761256367670929917940578824441053206);
    Square(427094198651976259540344842774561673889945192655078505504941250475370961481,
      870550106991210809050748326686233, 57896044618658097711785492504343953926634992332820282019728792003956564819949,
      28820793180904676690926483884028651454895761256367670929917940578824441053206,
      28413293919607502621258289276897781426962576283812982777041176825495107360888);
    Square(427094198651976259540344842774561673889945192655078505504941250475370961481,
      1741100213982421618101496653372466, 57896044618658097711785492504343953926634992332820282019728792003956564819949,
      28413293919607502621258289276897781426962576283812982777041176825495107360888,
      48760568120287607313244737400751252546748954040758908117490580321502832363889);
    SquareTimes(427094198651976259540344842774561673889945192655078505504941250475370961481,
      3482200427964843236202993306744932, 57896044618658097711785492504343953926634992332820282019728792003956564819949,
      48760568120287607313244737400751252546748954040758908117490580321502832363889,
      4487855551162701382290647692735831292533838689423624501989313993105958993817);
    SquareTimes(427094198651976259540344842774561673889945192655078505504941250475370961481,
      6964400855929686472405986613489865, 57896044618658097711785492504343953926634992332820282019728792003956564819949,
      4487855551162701382290647692735831292533838689423624501989313993105958993817,
      55599644297254399380067768221438791830964206220885686812723745998587011109683);
    Square(427094198651976259540344842774561673889945192655078505504941250475370961481,
      13928801711859372944811973226979731,
      57896044618658097711785492504343953926634992332820282019728792003956564819949,
      55599644297254399380067768221438791830964206220885686812723745998587011109683,
      4276256896512921966777910784492040295702496729740251883230389088679480856683);
    SquareTimes(427094198651976259540344842774561673889945192655078505504941250475370961481,
      27857603423718745889623946453959462,
      57896044618658097711785492504343953926634992332820282019728792003956564819949,
      4276256896512921966777910784492040295702496729740251883230389088679480856683,
      6549110976955184117405636693563754975455334343930016720517171971217636266916);
    SquareTimes(427094198651976259540344842774561673889945192655078505504941250475370961481,
      55715206847437491779247892907918925,
      57896044618658097711785492504343953926634992332820282019728792003956564819949,
      6549110976955184117405636693563754975455334343930016720517171971217636266916,
      56033023610871602085634520665859923857483458430557253786435905002523442644108);
    Square(427094198651976259540344842774561673889945192655078505504941250475370961481,
      111430413694874983558495785815837851,
      57896044618658097711785492504343953926634992332820282019728792003956564819949,
      56033023610871602085634520665859923857483458430557253786435905002523442644108,
      39255831465789304310469982887916019394055843292683743842619560502337366975920);
    SquareTimes(427094198651976259540344842774561673889945192655078505504941250475370961481,
      222860827389749967116991571631675702,
      57896044618658097711785492504343953926634992332820282019728792003956564819949,
      39255831465789304310469982887916019394055843292683743842619560502337366975920,
      51504761583591706547536408701101016105097333222671630412155068755894286915003);
    SquareTimes(427094198651976259540344842774561673889945192655078505504941250475370961481,
      445721654779499934233983143263351405,
      57896044618658097711785492504343953926634992332820282019728792003956564819949,
      51504761583591706547536408701101016105097333222671630412155068755894286915003,
      42532873960830155040291175100454154608398784018656757614686213500177675678669);
  }

  lemma POrderPart7(b: int, n: nat, m: int)
    requires b == 427094198651976259540344842774561673889945192655078505504941250475370961481
    requires n == 934746059764137846078666216861023927717273
    requires m == 57896044618658097711785492504343953926634992332820282019728792003956564819949
    ensures IsPower(b, n, m, 41927681362474810558901233770005482544224610147512712285175177604325912526055)
  {
    hide IsPower;
    POrderPart6(427094198651976259540344842774561673889945192655078505504941250475370961481,
      891443309558999868467966286526702811,
      57896044618658097711785492504343953926634992332820282019728792003956564819949);
    SquareTimes(427094198651976259540344842774561673889945192655078505504941250475370961481,
      891443309558999868467966286526702811,
      57896044618658097711785492504343953926634992332820282019728792003956564819949,
      42532873960830155040291175100454154608398784018656757614686213500177675678669,
      28418801402997731670048329287869076525468030547404397870782165292572331649842);
    SquareTimes(427094198651976259540344842774561673889945192655078505504941250475370961481,
      1782886619117999736935932573053405623,
      57896044618658097711785492504343953926634992332820282019728792003956564819949,
      28418801402997731670048329287869076525468030547404397870782165292572331649842,
      1669945530604586292645933286911069863503771571661618145817425439334364956652);
    SquareTimes(427094198651976259540344842774561673889945192655078505504941250475370961481,
      3565773238235999473871865146106811247,
      57896044618658097711785492504343953926634992332820282019728792003956564819949,
      1669945530604586292645933286911069863503771571661618145817425439334364956652,
      20576194369042005321323406879754413262613389749674551276827807808911608711321);
    Square(427094198651976259540344842774561673889945192655078505504941250475370961481,
      7131546476471998947743730292213622495,
      57896044618658097711785492504343953926634992332820282019728792003956564819949,
      20576194369042005321323406879754413262613389749674551276827807808911608711321,
      17594918541358062859687974302911580657972998141100381007557325450992553076171);
    SquareTimes(427094198651976259540344842774561673889945192655078505504941250475370961481,
      14263092952943997895487460584427244990,
      57896044618658097711785492504343953926634992332820282019728792003956564819949,
      17594918541358062859687974302911580657972998141100381007557325450992553076171,
      13547494505314555353564332335546720698143927910890016770158293596247968771513);
    SquareTimes(427094198651976259540344842774561673889945192655078505504941250475370961481,
      28526185905887995790974921168854489981,
      57896044618658097711785492504343953926634992332820282019728792003956564819949,
      13547494505314555353564332335546720698143927910890016770158293596247968771513,
      24599783715049411654164990527693390622538588542985779900912408707697406945885);
    Square(427094198651976259540344842774561673889945192655078505504941250475370961481,
      57052371811775991581949842337708979963,
      57896044618658097711785492504343953926634992332820282019728792003956564819949,
      24599783715049411654164990527693390622538588542985779900912408707697406945885,
      36829516250710780220594809354039240191529106751320639223436334677316561148501);
    Square(427094198651976259540344842774561673889945192655078505504941250475370961481,
      114104743623551983163899684675417959926,
      57896044618658097711785492504343953926634992332820282019728792003956564819949,
      36829516250710780220594809354039240191529106751320639223436334677316561148501,
      14461871592483881261971735660831462372461240489643981566949155844261368744243);
    SquareTimes(427094198651976259540344842774561673889945192655078505504941250475370961481,
      228209487247103966327799369350835919852,
      57896044618658097711785492504343953926634992332820282019728792003956564819949,
      14461871592483881261971735660831462372461240489643981566949155844261368744243,
      1488494668328016750261131181279409465032430910088781867619461241790932999746);
    SquareTimes(427094198651976259540344842774561673889945192655078505504941250475370961481,
      456418974494207932655598738701671839705,
      57896044618658097711785492504343953926634992332820282019728792003956564819949,
      1488494668328016750261131181279409465032430910088781867619461241790932999746,
      28546401485769269195453857999236772513134799931926354133640818957148449933220);
    Square(427094198651976259540344842774561673889945192655078505504941250475370961481,
      912837948988415865311197477403343679411,
      57896044618658097711785492504343953926634992332820282019728792003956564819949,
      28546401485769269195453857999236772513134799931926354133640818957148449933220,
      37310079118725637553809486386259577027729634863065982789872816699572183975684);
    SquareTimes(427094198651976259540344842774561673889945192655078505504941250475370961481,
      1825675897976831730622394954806687358822,
      57896044618658097711785492504343953926634992332820282019728792003956564819949,
      37310079118725637553809486386259577027729634863065982789872816699572183975684,
      45796910907002135359556463008630531184017085385285995109024888162234071944365);
    SquareTimes(427094198651976259540344842774561673889945192655078505504941250475370961481,
      3651351795953663461244789909613374717645,
      57896044618658097711785492504343953926634992332820282019728792003956564819949,
      45796910907002135359556463008630531184017085385285995109024888162234071944365,
      43680681889148021210465643787893166518816456483605302979587780277143547361203);
    Square(427094198651976259540344842774561673889945192655078505504941250475370961481,
      7302703591907326922489579819226749435291,
      57896044618658097711785492504343953926634992332820282019728792003956564819949,
      43680681889148021210465643787893166518816456483605302979587780277143547361203,
      41166965531205341650191581042385868373114891730606338535088473025512138835682);
    Square(427094198651976259540344842774561673889945192655078505504941250475370961481,
      14605407183814653844979159638453498870582,
      57896044618658097711785492504343953926634992332820282019728792003956564819949,
      41166965531205341650191581042385868373114891730606338535088473025512138835682,
      7187583571531403571541192479571030223266130461352245206968650259847417526963);
    SquareTimes(427094198651976259540344842774561673889945192655078505504941250475370961481,
      29210814367629307689958319276906997741164,
      57896044618658097711785492504343953926634992332820282019728792003956564819949,
      7187583571531403571541192479571030223266130461352245206968650259847417526963,
      1247820739513428705333943914063554994307787498311081325790949607112222869199);
    SquareTimes(427094198651976259540344842774561673889945192655078505504941250475370961481,
      58421628735258615379916638553813995482329,
      57896044618658097711785492504343953926634992332820282019728792003956564819949,
      1247820739513428705333943914063554994307787498311081325790949607112222869199,
      25038954099469458288254562946984128934245302939337638064752321068281080834919);
    Square(427094198651976259540344842774561673889945192655078505504941250475370961481,
      116843257470517230759833277107627990964659,
      57896044618658097711785492504343953926634992332820282019728792003956564819949,
      25038954099469458288254562946984128934245302939337638064752321068281080834919,
      33421684130539673618910053061915198821022852828531219354501376754304965023347);
    Square(427094198651976259540344842774561673889945192655078505504941250475370961481,
      233686514941034461519666554215255981929318,
      57896044618658097711785492504343953926634992332820282019728792003956564819949,
      33421684130539673618910053061915198821022852828531219354501376754304965023347,
      34723871287028752493863636517424016392902386871612591532877397680580430775634);
    SquareTimes(427094198651976259540344842774561673889945192655078505504941250475370961481,
      467373029882068923039333108430511963858636,
      57896044618658097711785492504343953926634992332820282019728792003956564819949,
      34723871287028752493863636517424016392902386871612591532877397680580430775634,
      41927681362474810558901233770005482544224610147512712285175177604325912526055);
  }

  lemma POrderPart8(b: int, n: nat, m: int)
    requires b == 427094198651976259540344842774561673889945192655078505504941250475370961481
    requires n == 980152284363240606089783507011265026030067336295
    requires m == 57896044618658097711785492504343953926634992332820282019728792003956564819949
    ensures IsPower(b, n, m, 152601542187853448978894384823834346382814296877938378035810330098204564735)
  {
    hide IsPower;
    POrderPart7(427094198651976259540344842774561673889945192655078505504941250475370961481,
      934746059764137846078666216861023927717273,
      57896044618658097711785492504343953926634992332820282019728792003956564819949);
    Square(427094198651976259540344842774561673889945192655078505504941250475370961481,
      934746059764137846078666216861023927717273,
      57896044618658097711785492504343953926634992332820282019728792003956564819949,
      41927681362474810558901233770005482544224610147512712285175177604325912526055,
      26276331329948146044490125332976179270740106921169771722666156126251820515866);
    Square(427094198651976259540344842774561673889945192655078505504941250475370961481,
      1869492119528275692157332433722047855434546,
      57896044618658097711785492504343953926634992332820282019728792003956564819949,
      26276331329948146044490125332976179270740106921169771722666156126251820515866,
      23081705795278562323519570688862862231251091444432372200455414161117208161632);
    Square(427094198651976259540344842774561673889945192655078505504941250475370961481,
      3738984239056551384314664867444095710869092,
      57896044618658097711785492504343953926634992332820282019728792003956564819949,
      23081705795278562323519570688862862231251091444432372200455414161117208161632,
      54119208672749036803778946493863281692240754413138914673264120440841617204036);
    SquareTimes(427094198651976259540344842774561673889945192655078505504941250475370961481,
      7477968478113102768629329734888191421738184,
      57896044618658097711785492504343953926634992332820282019728792003956564819949,
      54119208672749036803778946493863281692240754413138914673264120440841617204036,
      39832906640652820503726398585200022390171411614790194628717605134751221283506);
    Square(427094198651976259540344842774561673889945192655078505504941250475370961481,
      14955936956226205537258659469776382843476369,
      57896044618658097711785492504343953926634992332820282019728792003956564819949,
      39832906640652820503726398585200022390171411614790194628717605134751221283506,
      6120293442433010531706024161689829872621248450926808720705778420986109154853);
    SquareTimes(427094198651976259540344842774561673889945192655078505504941250475370961481,
      29911873912452411074517318939552765686952738,
      57896044618658097711785492504343953926634992332820282019728792003956564819949,
      6120293442433010531706024161689829872621248450926808720705778420986109154853,
      5242484779595940496302437226111389349607205010128206326332981216206624847986);
    Square(427094198651976259540344842774561673889945192655078505504941250475370961481,
      59823747824904822149034637879105531373905477,
      57896044618658097711785492504343953926634992332820282019728792003956564819949,
      5242484779595940496302437226111389349607205010128206326332981216206624847986,
      51414570362755797027132370453925940601523893504077987996327556878326179748661);
    Square(427094198651976259540344842774561673889945192655078505504941250475370961481,
      119647495649809644298069275758211062747810954,
      57896044618658097711785492504343953926634992332820282019728792003956564819949,
      51414570362755797027132370453925940601523893504077987996327556878326179748661,
      48246343998747768039029153989911253679638057025269545489768349315671039285941);
    Square(427094198651976259540344842774561673889945192655078505504941250475370961481,
      239294991299619288596138551516422125495621908,
      57896044618658097711785492504343953926634992332820282019728792003956564819949,
      48246343998747768039029153989911253679638057025269545489768349315671039285941,
      13443027365235758617710690735036083026702903156202438579611993614039717537465);
    SquareTimes(427094198651976259540344842774561673889945192655078505504941250475370961481,
      478589982599238577192277103032844250991243816,
      57896044618658097711785492504343953926634992332820282019728792003956564819949,
      13443027365235758617710690735036083026702903156202438579611993614039717537465,
      43552308034597376650375962058370418388404563743930774121862970414060722610358);
    Square(427094198651976259540344842774561673889945192655078505504941250475370961481,
      957179965198477154384554206065688501982487633,
      57896044618658097711785492504343953926634992332820282019728792003956564819949,
      43552308034597376650375962058370418388404563743930774121862970414060722610358,
      30356728427362183254141964481547826613398364510626263086244827861487337628111);
    Square(427094198651976259540344842774561673889945192655078505504941250475370961481,
      1914359930396954308769108412131377003964975266,
      57896044618658097711785492504343953926634992332820282019728792003956564819949,
      30356728427362183254141964481547826613398364510626263086244827861487337628111,
      52151714678777916517093620022923185720340113327740698312847380521262070838775);
    Square(427094198651976259540344842774561673889945192655078505504941250475370961481,
      3828719860793908617538216824262754007929950532,
      57896044618658097711785492504343953926634992332820282019728792003956564819949,
      52151714678777916517093620022923185720340113327740698312847380521262070838775,
      48029088943998092938626288950341747728522858554167192570162363553386875567672);
    SquareTimes(427094198651976259540344842774561673889945192655078505504941250475370961481,
      7657439721587817235076433648525508015859901064,
      57896044618658097711785492504343953926634992332820282019728792003956564819949,
      48029088943998092938626288950341747728522858554167192570162363553386875567672,
      36882427607679055049084078993013576130148470320869556564280883003706241382403);
    SquareTimes(427094198651976259540344842774561673889945192655078505504941250475370961481,
      15314879443175634470152867297051016031719802129,
      57896044618658097711785492504343953926634992332820282019728792003956564819949,
      36882427607679055049084078993013576130148470320869556564280883003706241382403,
      13434232508343919863328023797712279617160626508434798968268709233719163380942);
    Square(427094198651976259540344842774561673889945192655078505504941250475370961481,
      30629758886351268940305734594102032063439604259,
      57896044618658097711785492504343953926634992332820282019728792003956564819949,
      13434232508343919863328023797712279617160626508434798968268709233719163380942,
      3215453593461425960611987298494385559511885300130936204675115439516779370492);
    Square(427094198651976259540344842774561673889945192655078505504941250475370961481,
      61259517772702537880611469188204064126879208518,
      57896044618658097711785492504343953926634992332820282019728792003956564819949,
      3215453593461425960611987298494385559511885300130936204675115439516779370492,
      54087528215946073155958381366094848266149682620593789860136698574670231503155);
    SquareTimes(427094198651976259540344842774561673889945192655078505504941250475370961481,
      122519035545405075761222938376408128253758417036,
      57896044618658097711785492504343953926634992332820282019728792003956564819949,
      54087528215946073155958381366094848266149682620593789860136698574670231503155,
      57501231533071249507402569806155447708013924934939701136513029160767157826131);
    SquareTimes(427094198651976259540344842774561673889945192655078505504941250475370961481,
      245038071090810151522445876752816256507516834073,
      57896044618658097711785492504343953926634992332820282019728792003956564819949,
      57501231533071249507402569806155447708013924934939701136513029160767157826131,
      27515545535926308937322503410892203774386948920680962559862085304073803036075);
    SquareTimes(427094198651976259540344842774561673889945192655078505504941250475370961481,
      490076142181620303044891753505632513015033668147,
      57896044618658097711785492504343953926634992332820282019728792003956564819949,
      27515545535926308937322503410892203774386948920680962559862085304073803036075,
      152601542187853448978894384823834346382814296877938378035810330098204564735);
  }

  lemma POrderPart9(b: int, n: nat, m: int)
    requires b == 427094198651976259540344842774561673889945192655078505504941250475370961481
    requires n == 1027764161728469381771200830647844235934503887223505325
    requires m == 57896044618658097711785492504343953926634992332820282019728792003956564819949
    ensures IsPower(b, n, m, 10883884111433223667315730906048902467283898482463509180944817238766197940663)
  {
    hide IsPower;
    POrderPart8(427094198651976259540344842774561673889945192655078505504941250475370961481,
      980152284363240606089783507011265026030067336295,
      57896044618658097711785492504343953926634992332820282019728792003956564819949);
    SquareTimes(427094198651976259540344842774561673889945192655078505504941250475370961481,
      980152284363240606089783507011265026030067336295,
      57896044618658097711785492504343953926634992332820282019728792003956564819949,
      152601542187853448978894384823834346382814296877938378035810330098204564735,
      43212696407549048340183088799881863943380797803870698773975049607352091859437);
    Square(427094198651976259540344842774561673889945192655078505504941250475370961481,
      1960304568726481212179567014022530052060134672591,
      57896044618658097711785492504343953926634992332820282019728792003956564819949,
      43212696407549048340183088799881863943380797803870698773975049607352091859437,
      13249385829552354583019656551678920110473580605081377300686587628654153237224);
    Square(427094198651976259540344842774561673889945192655078505504941250475370961481,
      3920609137452962424359134028045060104120269345182,
      57896044618658097711785492504343953926634992332820282019728792003956564819949,
      13249385829552354583019656551678920110473580605081377300686587628654153237224,
      29154006597522976628754075964933544093740934207401532953584171955511443400816);
    SquareTimes(427094198651976259540344842774561673889945192655078505504941250475370961481,
      7841218274905924848718268056090120208240538690364,
      57896044618658097711785492504343953926634992332820282019728792003956564819949,
      29154006597522976628754075964933544093740934207401532953584171955511443400816,
      37609090340799994068413948117007459714616060363820694041986930964516200758593);
    SquareTimes(427094198651976259540344842774561673889945192655078505504941250475370961481,
      15682436549811849697436536112180240416481077380729,
      57896044618658097711785492504343953926634992332820282019728792003956564819949,
      37609090340799994068413948117007459714616060363820694041986930964516200758593,
      43592869395818373592638075423708317801563560622377129968516538277453276638195);
    SquareTimes(427094198651976259540344842774561673889945192655078505504941250475370961481,
      31364873099623699394873072224360480832962154761459,
      57896044618658097711785492504343953926634992332820282019728792003956564819949,
      43592869395818373592638075423708317801563560622377129968516538277453276638195,
      2894153154619478174679753050261223791001564703585208435341093989658713620228);
    Square(427094198651976259540344842774561673889945192655078505504941250475370961481,
      62729746199247398789746144448720961665924309522919,
      57896044618658097711785492504343953926634992332820282019728792003956564819949,
      2894153154619478174679753050261223791001564703585208435341093989658713620228,
      41951026389111493503745053818503403431014430706196953495844715157911231262473);
    Square(427094198651976259540344842774561673889945192655078505504941250475370961481,
      125459492398494797579492288897441923331848619045838,
      57896044618658097711785492504343953926634992332820282019728792003956564819949,
      41951026389111493503745053818503403431014430706196953495844715157911231262473,
      19164346660738055113289996435041320314018433960420067764502877733761829864140);
    Square(427094198651976259540344842774561673889945192655078505504941250475370961481,
      250918984796989595158984577794883846663697238091676,
      57896044618658097711785492504343953926634992332820282019728792003956564819949,
      19164346660738055113289996435041320314018433960420067764502877733761829864140,
      45301230596733068608101926095525219423301194013730194622074493052818202864411);
    Square(427094198651976259540344842774561673889945192655078505504941250475370961481,
      501837969593979190317969155589767693327394476183352,
      57896044618658097711785492504343953926634992332820282019728792003956564819949,
      45301230596733068608101926095525219423301194013730194622074493052818202864411,
      23327996931476801612517516469543720213030071754477006246823299059528614662282);
    Square(427094198651976259540344842774561673889945192655078505504941250475370961481,
      1003675939187958380635938311179535386654788952366704,
      57896044618658097711785492504343953926634992332820282019728792003956564819949,
      23327996931476801612517516469543720213030071754477006246823299059528614662282,
      2671061329618180745943128540173869411813959564420915532455685974633346068939);
    SquareTimes(427094198651976259540344842774561673889945192655078505504941250475370961481,
      2007351878375916761271876622359070773309577904733408,
      57896044618658097711785492504343953926634992332820282019728792003956564819949,
      2671061329618180745943128540173869411813959564420915532455685974633346068939,
      48875752355309939871757830869853963593084430361509727384008678131659470121529);
    SquareTimes(427094198651976259540344842774561673889945192655078505504941250475370961481,
      4014703756751833522543753244718141546619155809466817,
      57896044618658097711785492504343953926634992332820282019728792003956564819949,
      48875752355309939871757830869853963593084430361509727384008678131659470121529,
      47045671807621738724520843794105977827261577554913343105735393531333616971588);
    Square(427094198651976259540344842774561673889945192655078505504941250475370961481,
      8029407513503667045087506489436283093238311618933635,
      57896044618658097711785492504343953926634992332820282019728792003956564819949,
      47045671807621738724520843794105977827261577554913343105735393531333616971588,
      32413731959821003125803150820914111202383006772384266714021418360677514858366);
    SquareTimes(427094198651976259540344842774561673889945192655078505504941250475370961481,
      16058815027007334090175012978872566186476623237867270,
      57896044618658097711785492504343953926634992332820282019728792003956564819949,
      32413731959821003125803150820914111202383006772384266714021418360677514858366,
      1188509806696210650476978033865354061220524217420591674021322177887516285913);
    Square(427094198651976259540344842774561673889945192655078505504941250475370961481,
      32117630054014668180350025957745132372953246475734541,
      57896044618658097711785492504343953926634992332820282019728792003956564819949,
      1188509806696210650476978033865354061220524217420591674021322177887516285913,
      18188732937062113440335717743220533369331661120261128937912396591400134039392);
    SquareTimes(427094198651976259540344842774561673889945192655078505504941250475370961481,
      64235260108029336360700051915490264745906492951469082,
      57896044618658097711785492504343953926634992332820282019728792003956564819949,
      18188732937062113440335717743220533369331661120261128937912396591400134039392,
      45510524983941291556869905066334632273455074216450367739065940866266177135478);
    SquareTimes(427094198651976259540344842774561673889945192655078505504941250475370961481,
      128470520216058672721400103830980529491812985902938165,
      57896044618658097711785492504343953926634992332820282019728792003956564819949,
      45510524983941291556869905066334632273455074216450367739065940866266177135478,
      28898903750496282879679321878388304113225678355916847888928122834657925688431);
    Square(427094198651976259540344842774561673889945192655078505504941250475370961481,
      256941040432117345442800207661961058983625971805876331,
      57896044618658097711785492504343953926634992332820282019728792003956564819949,
      28898903750496282879679321878388304113225678355916847888928122834657925688431,
      27912888663709554907493293027261878486114654462618040709025583871848480914702);
    SquareTimes(427094198651976259540344842774561673889945192655078505504941250475370961481,
      513882080864234690885600415323922117967251943611752662,
      57896044618658097711785492504343953926634992332820282019728792003956564819949,
      27912888663709554907493293027261878486114654462618040709025583871848480914702,
      10883884111433223667315730906048902467283898482463509180944817238766197940663);
  }

  lemma POrderPart10(b: int, n: nat, m: int)
    requires b == 427094198651976259540344842774561673889945192655078505504941250475370961481
    requires n == 1077688833648591510460118682197393917539258348049274320683080
    requires m == 57896044618658097711785492504343953926634992332820282019728792003956564819949
    ensures IsPower(b, n, m, 13994427115391014544897438931103655458000929880022612602248729650544166562111)
  {
    hide IsPower;
    POrderPart9(427094198651976259540344842774561673889945192655078505504941250475370961481,
      1027764161728469381771200830647844235934503887223505325,
      57896044618658097711785492504343953926634992332820282019728792003956564819949);
    SquareTimes(427094198651976259540344842774561673889945192655078505504941250475370961481,
      1027764161728469381771200830647844235934503887223505325,
      57896044618658097711785492504343953926634992332820282019728792003956564819949,
      10883884111433223667315730906048902467283898482463509180944817238766197940663,
      10909525949548386168691328525332258314036126523250977308007417133613522629355);
    SquareTimes(427094198651976259540344842774561673889945192655078505504941250475370961481,
      2055528323456938763542401661295688471869007774447010651,
      57896044618658097711785492504343953926634992332820282019728792003956564819949,
      10909525949548386168691328525332258314036126523250977308007417133613522629355,
      35473777925468659493192455858913558920296932341781913299141401153519128098599);
    SquareTimes(427094198651976259540344842774561673889945192655078505504941250475370961481,
      4111056646913877527084803322591376943738015548894021303,
      57896044618658097711785492504343953926634992332820282019728792003956564819949,
      35473777925468659493192455858913558920296932341781913299141401153519128098599,
      21416675499552004479135991191183583348062920385494654272026942093930405265752);
    SquareTimes(427094198651976259540344842774561673889945192655078505504941250475370961481,
      8222113293827755054169606645182753887476031097788042607,
      57896044618658097711785492504343953926634992332820282019728792003956564819949,
      21416675499552004479135991191183583348062920385494654272026942093930405265752,
      54169082321873428330638730529068421418942657738876193185681363403881165321328);
    SquareTimes(427094198651976259540344842774561673889945192655078505504941250475370961481,
      16444226587655510108339213290365507774952062195576085215,
      57896044618658097711785492504343953926634992332820282019728792003956564819949,
      54169082321873428330638730529068421418942657738876193185681363403881165321328,
      25770220652076729703954283827994460942888674864077140685525943211072465597131);
    Square(427094198651976259540344842774561673889945192655078505504941250475370961481,
      32888453175311020216678426580731015549904124391152170431,
      57896044618658097711785492504343953926634992332820282019728792003956564819949,
      25770220652076729703954283827994460942888674864077140685525943211072465597131,
      8896506518635824632252471503557819642004337646078590729625394372647992286837);
    Square(427094198651976259540344842774561673889945192655078505504941250475370961481,
      65776906350622040433356853161462031099808248782304340862,
      57896044618658097711785492504343953926634992332820282019728792003956564819949,
      8896506518635824632252471503557819642004337646078590729625394372647992286837,
      3270634289514136040657782920523117569381182486830442725595559209654771036683);
    Square(427094198651976259540344842774561673889945192655078505504941250475370961481,
      131553812701244080866713706322924062199616497564608681724,
      57896044618658097711785492504343953926634992332820282019728792003956564819949,
      3270634289514136040657782920523117569381182486830442725595559209654771036683,
      935023828440474665390859167682111444061825137272694832519694352493224515034);
    Square(427094198651976259540344842774561673889945192655078505504941250475370961481,
      263107625402488161733427412645848124399232995129217363448,
      57896044618658097711785492504343953926634992332820282019728792003956564819949,
      935023828440474665390859167682111444061825137272694832519694352493224515034,
      12127046850670377601399111952288469842357163137868326475687148510484977113699);
    Square(427094198651976259540344842774561673889945192655078505504941250475370961481,
      526215250804976323466854825291696248798465990258434726896,
      57896044618658097711785492504343953926634992332820282019728792003956564819949,
      12127046850670377601399111952288469842357163137868326475687148510484977113699,
      8874275769270908184188935443134861264243532294721441566785998064904699407985);
    Square(427094198651976259540344842774561673889945192655078505504941250475370961481,
      1052430501609952646933709650583392497596931980516869453792,
      57896044618658097711785492504343953926634992332820282019728792003956564819949,
      8874275769270908184188935443134861264243532294721441566785998064904699407985,
      8875821787165647673128373388922054249873104424871897189558307808816998424094);
    Square(427094198651976259540344842774561673889945192655078505504941250475370961481,
      2104861003219905293867419301166784995193863961033738907584,
      57896044618658097711785492504343953926634992332820282019728792003956564819949,
      8875821787165647673128373388922054249873104424871897189558307808816998424094,
      19062982700936893164249770525031733872625842725087887329754823910341902028081);
    Square(427094198651976259540344842774561673889945192655078505504941250475370961481,
      4209722006439810587734838602333569990387727922067477815168,
      57896044618658097711785492504343953926634992332820282019728792003956564819949,
      19062982700936893164249770525031733872625842725087887329754823910341902028081,
      44423846786210531268020608428341574670565282455433269933391855555936280677756);
    SquareTimes(427094198651976259540344842774561673889945192655078505504941250475370961481,
      8419444012879621175469677204667139980775455844134955630336,
      57896044618658097711785492504343953926634992332820282019728792003956564819949,
      44423846786210531268020608428341574670565282455433269933391855555936280677756,
      42539694043354245764428298156228308720361762160177639521841687359636435415547);
    Square(427094198651976259540344842774561673889945192655078505504941250475370961481,
      16838888025759242350939354409334279961550911688269911260673,
      57896044618658097711785492504343953926634992332820282019728792003956564819949,
      42539694043354245764428298156228308720361762160177639521841687359636435415547,
      7298012876961017116817833736953902880851091651394476276115149294234802001933);
    Square(427094198651976259540344842774561673889945192655078505504941250475370961481,
      33677776051518484701878708818668559923101823376539822521346,
      57896044618658097711785492504343953926634992332820282019728792003956564819949,
      7298012876961017116817833736953902880851091651394476276115149294234802001933,
      24918802905425761976188496551454470664772191904275086604180514545327758295197);
    SquareTimes(427094198651976259540344842774561673889945192655078505504941250475370961481,
      67355552103036969403757417637337119846203646753079645042692,
      57896044618658097711785492504343953926634992332820282019728792003956564819949,
      24918802905425761976188496551454470664772191904275086604180514545327758295197,
      37901783930670076816202507891744535059531726142026751002839882051544061921651);
    Square(427094198651976259540344842774561673889945192655078505504941250475370961481,
      134711104206073938807514835274674239692407293506159290085385,
      57896044618658097711785492504343953926634992332820282019728792003956564819949,
      37901783930670076816202507891744535059531726142026751002839882051544061921651,
      15787933884063083731523860917793289395884463571981110586113620482883928423379);
    Square(427094198651976259540344842774561673889945192655078505504941250475370961481,
      269422208412147877615029670549348479384814587012318580170770,
      57896044618658097711785492504343953926634992332820282019728792003956564819949,
      15787933884063083731523860917793289395884463571981110586113620482883928423379,
      5476787377620535851141531494065508110550163760920905609659184438830191898844);
    Square(427094198651976259540344842774561673889945192655078505504941250475370961481,
      538844416824295755230059341098696958769629174024637160341540,
      57896044618658097711785492504343953926634992332820282019728792003956564819949,
      5476787377620535851141531494065508110550163760920905609659184438830191898844,
      13994427115391014544897438931103655458000929880022612602248729650544166562111);
  }

  lemma POrderPart11(b: int, n: nat, m: int)
    requires b == 427094198651976259540344842774561673889945192655078505504941250475370961481
    requires n == 1130038646431905491672229407303814524477645361564115870084581920690
    requires m == 57896044618658097711785492504343953926634992332820282019728792003956564819949
    ensures IsPower(b, n, m, 25560460532752166059024512366388919500430392815330470846198193266275789041883)
  {
    hide IsPower;
    POrderPart10(427094198651976259540344842774561673889945192655078505504941250475370961481,
      1077688833648591510460118682197393917539258348049274320683080,
      57896044618658097711785492504343953926634992332820282019728792003956564819949);
    SquareTimes(427094198651976259540344842774561673889945192655078505504941250475370961481,
      1077688833648591510460118682197393917539258348049274320683080,
      57896044618658097711785492504343953926634992332820282019728792003956564819949,
      13994427115391014544897438931103655458000929880022612602248729650544166562111,
      7792953258318192402506248742945906843063739171489836101192825421831502117019);
    Square(427094198651976259540344842774561673889945192655078505504941250475370961481,
      2155377667297183020920237364394787835078516696098548641366161,
      57896044618658097711785492504343953926634992332820282019728792003956564819949,
      7792953258318192402506248742945906843063739171489836101192825421831502117019,
      36510454222244557545753177085367381112249008224871749310992412418525559372333);
    Square(427094198651976259540344842774561673889945192655078505504941250475370961481,
      4310755334594366041840474728789575670157033392197097282732322,
      57896044618658097711785492504343953926634992332820282019728792003956564819949,
      36510454222244557545753177085367381112249008224871749310992412418525559372333,
      3391444908789519947781968715478177066730850710392458618625210508572239126541);
    SquareTimes(427094198651976259540344842774561673889945192655078505504941250475370961481,
      8621510669188732083680949457579151340314066784394194565464644,
      57896044618658097711785492504343953926634992332820282019728792003956564819949,
      3391444908789519947781968715478177066730850710392458618625210508572239126541,
      51741045559351665938260127113028283849658206032324741655895138422641520268587);
    SquareTimes(427094198651976259540344842774561673889945192655078505504941250475370961481,
      17243021338377464167361898915158302680628133568788389130929289,
      57896044618658097711785492504343953926634992332820282019728792003956564819949,
      51741045559351665938260127113028283849658206032324741655895138422641520268587,
      24138487424796382582251850494898812818316373329742595767116363117259634598786);
    Square(427094198651976259540344842774561673889945192655078505504941250475370961481,
      34486042676754928334723797830316605361256267137576778261858579,
      57896044618658097711785492504343953926634992332820282019728792003956564819949,
      24138487424796382582251850494898812818316373329742595767116363117259634598786,
      6110498484767490160012387194862094183338803037229949066059940975401214070989);
    Square(427094198651976259540344842774561673889945192655078505504941250475370961481,
      68972085353509856669447595660633210722512534275153556523717158,
      57896044618658097711785492504343953926634992332820282019728792003956564819949,
      6110498484767490160012387194862094183338803037229949066059940975401214070989,
      40652497878284694455916509182302965871476730293353521110614708928568924022517);
    Square(427094198651976259540344842774561673889945192655078505504941250475370961481,
      137944170707019713338895191321266421445025068550307113047434316,
      57896044618658097711785492504343953926634992332820282019728792003956564819949,
      40652497878284694455916509182302965871476730293353521110614708928568924022517,
      30540907675580387017385907791723119891251814306795054389219986041132346246446);
    SquareTimes(427094198651976259540344842774561673889945192655078505504941250475370961481,
      275888341414039426677790382642532842890050137100614226094868632,
      57896044618658097711785492504343953926634992332820282019728792003956564819949,
      30540907675580387017385907791723119891251814306795054389219986041132346246446,
      8965339367847465405696815827064334620273263576104554170439925841548026264442);
    SquareTimes(427094198651976259540344842774561673889945192655078505504941250475370961481,
      551776682828078853355580765285065685780100274201228452189737265,
      57896044618658097711785492504343953926634992332820282019728792003956564819949,
      8965339367847465405696815827064334620273263576104554170439925841548026264442,
      26640510338933393310988380175489205519418730890073370862513564094257943020050);
    SquareTimes(427094198651976259540344842774561673889945192655078505504941250475370961481,
      1103553365656157706711161530570131371560200548402456904379474531,
      57896044618658097711785492504343953926634992332820282019728792003956564819949,
      26640510338933393310988380175489205519418730890073370862513564094257943020050,
      50893648327425574726922850061299709061825300522060520194048830765545752400294);
    SquareTimes(427094198651976259540344842774561673889945192655078505504941250475370961481,
      2207106731312315413422323061140262743120401096804913808758949063,
      57896044618658097711785492504343953926634992332820282019728792003956564819949,
      50893648327425574726922850061299709061825300522060520194048830765545752400294,
      13647012101339909475706741026878740918802404762863524864323803974798575217813);
    SquareTimes(427094198651976259540344842774561673889945192655078505504941250475370961481,
      4414213462624630826844646122280525486240802193609827617517898127,
      57896044618658097711785492504343953926634992332820282019728792003956564819949,
      13647012101339909475706741026878740918802404762863524864323803974798575217813,
      42873535862385400870569295475397005767977804929020322949604621165613685325563);
    Square(427094198651976259540344842774561673889945192655078505504941250475370961481,
      8828426925249261653689292244561050972481604387219655235035796255,
      57896044618658097711785492504343953926634992332820282019728792003956564819949,
      42873535862385400870569295475397005767977804929020322949604621165613685325563,
      44791489242781786909265050548923091543747540072748862133077574124394209220063);
    SquareTimes(427094198651976259540344842774561673889945192655078505504941250475370961481,
      17656853850498523307378584489122101944963208774439310470071592510,
      57896044618658097711785492504343953926634992332820282019728792003956564819949,
      44791489242781786909265050548923091543747540072748862133077574124394209220063,
      41599346437214943269335985176841925201108572334754302293596973627811171328593);
    SquareTimes(427094198651976259540344842774561673889945192655078505504941250475370961481,
      35313707700997046614757168978244203889926417548878620940143185021,
      57896044618658097711785492504343953926634992332820282019728792003956564819949,
      41599346437214943269335985176841925201108572334754302293596973627811171328593,
      54093817427277148107869615290523170143429263543108894965662900100744228441816);
    Square(427094198651976259540344842774561673889945192655078505504941250475370961481,
      70627415401994093229514337956488407779852835097757241880286370043,
      57896044618658097711785492504343953926634992332820282019728792003956564819949,
      54093817427277148107869615290523170143429263543108894965662900100744228441816,
      43111428312042068187591432377517063048474920655567231042172106260225974564461);
    Square(427094198651976259540344842774561673889945192655078505504941250475370961481,
      141254830803988186459028675912976815559705670195514483760572740086,
      57896044618658097711785492504343953926634992332820282019728792003956564819949,
      43111428312042068187591432377517063048474920655567231042172106260225974564461,
      18920132259804569315768614258737812853067287572619192688969069954356508644789);
    SquareTimes(427094198651976259540344842774561673889945192655078505504941250475370961481,
      282509661607976372918057351825953631119411340391028967521145480172,
      57896044618658097711785492504343953926634992332820282019728792003956564819949,
      18920132259804569315768614258737812853067287572619192688969069954356508644789,
      48813004998842646180785194241866620602937084005815547286409104057278628284066);
    Square(427094198651976259540344842774561673889945192655078505504941250475370961481,
      565019323215952745836114703651907262238822680782057935042290960345,
      57896044618658097711785492504343953926634992332820282019728792003956564819949,
      48813004998842646180785194241866620602937084005815547286409104057278628284066,
      25560460532752166059024512366388919500430392815330470846198193266275789041883);
  }

  lemma POrder(b: int, n: nat, m: int)
    requires b == 427094198651976259540344842774561673889945192655078505504941250475370961481
    requires n == 74058212732561358302231226437062788676166966415465897661863160754340907
    requires m == 57896044618658097711785492504343953926634992332820282019728792003956564819949
    ensures IsPower(b, n, m, 1)
  {
    hide IsPower;
    POrderPart11(427094198651976259540344842774561673889945192655078505504941250475370961481,
      1130038646431905491672229407303814524477645361564115870084581920690,
      57896044618658097711785492504343953926634992332820282019728792003956564819949);
    Square(427094198651976259540344842774561673889945192655078505504941250475370961481,
      1130038646431905491672229407303814524477645361564115870084581920690,
      57896044618658097711785492504343953926634992332820282019728792003956564819949,
      25560460532752166059024512366388919500430392815330470846198193266275789041883,
      48816331545665593700823490627533425023100715768760210555532727870711555144492);
    Square(427094198651976259540344842774561673889945192655078505504941250475370961481,
      2260077292863810983344458814607629048955290723128231740169163841380,
      57896044618658097711785492504343953926634992332820282019728792003956564819949,
      48816331545665593700823490627533425023100715768760210555532727870711555144492,
      34767274707632539804949650353880568988641946971994994966360875238719381656371);
    Square(427094198651976259540344842774561673889945192655078505504941250475370961481,
      4520154585727621966688917629215258097910581446256463480338327682760,
      57896044618658097711785492504343953926634992332820282019728792003956564819949,
      34767274707632539804949650353880568988641946971994994966360875238719381656371,
      12250687549962048527441467273582542250518375019267036893351929307712672911893);
    Square(427094198651976259540344842774561673889945192655078505504941250475370961481,
      9040309171455243933377835258430516195821162892512926960676655365520,
      57896044618658097711785492504343953926634992332820282019728792003956564819949,
      12250687549962048527441467273582542250518375019267036893351929307712672911893,
      53552677005656845413702691491443330960070798694340688854194162040428712379468);
    Square(427094198651976259540344842774561673889945192655078505504941250475370961481,
      18080618342910487866755670516861032391642325785025853921353310731040,
      57896044618658097711785492504343953926634992332820282019728792003956564819949,
      53552677005656845413702691491443330960070798694340688854194162040428712379468,
      22772710635225984970476670226846727287526824665216155064187402118027739720589);
    SquareTimes(427094198651976259540344842774561673889945192655078505504941250475370961481,
      36161236685820975733511341033722064783284651570051707842706621462080,
      57896044618658097711785492504343953926634992332820282019728792003956564819949,
      22772710635225984970476670226846727287526824665216155064187402118027739720589,
      19419232893673161220677835722053384491163709809631580167057346603409087562811);
    Square(427094198651976259540344842774561673889945192655078505504941250475370961481,
      72322473371641951467022682067444129566569303140103415685413242924161,
      57896044618658097711785492504343953926634992332820282019728792003956564819949,
      19419232893673161220677835722053384491163709809631580167057346603409087562811,
      43001586116334059698006118021632416418498950987614820796677036205144386242859);
    Square(427094198651976259540344842774561673889945192655078505504941250475370961481,
      144644946743283902934045364134888259133138606280206831370826485848322,
      57896044618658097711785492504343953926634992332820282019728792003956564819949,
      43001586116334059698006118021632416418498950987614820796677036205144386242859,
      32114950556172515406831703024625072929990838741274810388106572087850143390736);
    Square(427094198651976259540344842774561673889945192655078505504941250475370961481,
      289289893486567805868090728269776518266277212560413662741652971696644,
      57896044618658097711785492504343953926634992332820282019728792003956564819949,
      32114950556172515406831703024625072929990838741274810388106572087850143390736,
      17770247765474568520304619363434123025478323839786252019487271968448159536789);
    Square(427094198651976259540344842774561673889945192655078505504941250475370961481,
      578579786973135611736181456539553036532554425120827325483305943393288,
      57896044618658097711785492504343953926634992332820282019728792003956564819949,
      17770247765474568520304619363434123025478323839786252019487271968448159536789,
      48065247105543337114516180495608380835543182355398403694558119201372402904999);
    SquareTimes(427094198651976259540344842774561673889945192655078505504941250475370961481,
      1157159573946271223472362913079106073065108850241654650966611886786576,
      57896044618658097711785492504343953926634992332820282019728792003956564819949,
      48065247105543337114516180495608380835543182355398403694558119201372402904999,
      18783464869209027112019837103896923231651912764359258796427627009736708138339);
    Square(427094198651976259540344842774561673889945192655078505504941250475370961481,
      2314319147892542446944725826158212146130217700483309301933223773573153,
      57896044618658097711785492504343953926634992332820282019728792003956564819949,
      18783464869209027112019837103896923231651912764359258796427627009736708138339,
      10615849756382961826258691359158727798145802165111405256613649610189885584471);
    SquareTimes(427094198651976259540344842774561673889945192655078505504941250475370961481,
      4628638295785084893889451652316424292260435400966618603866447547146306,
      57896044618658097711785492504343953926634992332820282019728792003956564819949,
      10615849756382961826258691359158727798145802165111405256613649610189885584471,
      41557155152069536204416056485474963873434171871509600680607766749639639151421);
    Square(427094198651976259540344842774561673889945192655078505504941250475370961481,
      9257276591570169787778903304632848584520870801933237207732895094292613,
      57896044618658097711785492504343953926634992332820282019728792003956564819949,
      41557155152069536204416056485474963873434171871509600680607766749639639151421,
      534710732574991255856639317971141407552769210907976025071979522572597437801);
    SquareTimes(427094198651976259540344842774561673889945192655078505504941250475370961481,
      18514553183140339575557806609265697169041741603866474415465790188585226,
      57896044618658097711785492504343953926634992332820282019728792003956564819949,
      534710732574991255856639317971141407552769210907976025071979522572597437801,
      24704447319791683117435035057164271552060209457596776762619784427891874679386);
    SquareTimes(427094198651976259540344842774561673889945192655078505504941250475370961481,
      37029106366280679151115613218531394338083483207732948830931580377170453,
      57896044618658097711785492504343953926634992332820282019728792003956564819949,
      24704447319791683117435035057164271552060209457596776762619784427891874679386, 1);
  }

  /** The number of the field is prime. */
  lemma FieldIsPrime()
    ensures Prime(P)
  {
    hide IsPower, Prime;
    POrder(427094198651976259540344842774561673889945192655078505504941250475370961481,
      74058212732561358302231226437062788676166966415465897661863160754340907,
      57896044618658097711785492504343953926634992332820282019728792003956564819949);
    R1Prime();
    PrimeByOrder(57896044618658097711785492504343953926634992332820282019728792003956564819949,
      74058212732561358302231226437062788676166966415465897661863160754340907,
      427094198651976259540344842774561673889945192655078505504941250475370961481,
      55540832096118778044507775605005710249233119951144946814680141076505643269084,
      409719996120619553712206717513598108624848060785013849502386565616653579131);
  }
}
