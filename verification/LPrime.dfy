/**
  The order of the base point is prime: a chain of primes, each with an element whose order is the one before it.
  Every line of a power lemma takes in one more bit of the exponent.
 */
module LPrime {
  import opened Modular
  import opened Primality

  const L: int :=
    0x1000000000000000000000000000000000000000000000000000000000000000 + 27742317777372353535851937790883648493
  const Q1: int := 276602624281642239937218680557139826668747
  const Q2: int := 19757330305831588566944191468367130476339
  const Q3: int := 172054593956031949258510691
  const Q4: int := 4434155615661930479
  const Q5: int := 1257559732178653
  const Q6: int := 1224481
  const Q7: int := 531581
  const Q8: int := 3797

  lemma P73Prime()
    ensures Prime(73)
  {
    assert Undivided(73, 4, 9);
    PrimeByTrial(73, 9);
  }

  lemma P2551Prime()
    ensures Prime(2551)
  {
    assert Undivided(2551, 46, 51);
    assert Undivided(2551, 40, 51);
    assert Undivided(2551, 34, 51);
    assert Undivided(2551, 28, 51);
    assert Undivided(2551, 22, 51);
    assert Undivided(2551, 16, 51);
    assert Undivided(2551, 10, 51);
    assert Undivided(2551, 4, 51);
    PrimeByTrial(2551, 51);
  }

  lemma Q8Order(b: int, n: nat, m: int)
    requires b == 3565 && n == 73 && m == 3797
    ensures IsPower(b, n, m, 1)
  {
    hide IsPower;
    ZeroPower(3565, 3797);
    SquareTimes(3565, 0, 3797, 1, 3565);
    Square(3565, 1, 3797, 3565, 666);
    Square(3565, 2, 3797, 666, 3104);
    SquareTimes(3565, 4, 3797, 3104, 1400);
    Square(3565, 9, 3797, 1400, 748);
    Square(3565, 18, 3797, 748, 1345);
    SquareTimes(3565, 36, 3797, 1345, 1);
  }

  lemma Q8Prime()
    ensures Prime(Q8)
  {
    hide IsPower, Prime;
    Q8Order(3565, 73, 3797);
    P73Prime();
    PrimeByOrder(3797, 73, 3565, 3357, 3151);
  }

  lemma Q7Order(b: int, n: nat, m: int)
    requires b == 32301 && n == 3797 && m == 531581
    ensures IsPower(b, n, m, 1)
  {
    hide IsPower;
    ZeroPower(32301, 531581);
    SquareTimes(32301, 0, 531581, 1, 32301);
    SquareTimes(32301, 1, 531581, 32301, 401719);
    SquareTimes(32301, 3, 531581, 401719, 129495);
    Square(32301, 7, 531581, 129495, 232380);
    SquareTimes(32301, 14, 531581, 232380, 319531);
    SquareTimes(32301, 29, 531581, 319531, 305291);
    Square(32301, 59, 531581, 305291, 497951);
    SquareTimes(32301, 118, 531581, 497951, 68714);
    Square(32301, 237, 531581, 68714, 111354);
    SquareTimes(32301, 474, 531581, 111354, 293694);
    Square(32301, 949, 531581, 293694, 237833);
    SquareTimes(32301, 1898, 531581, 237833, 1);
  }

  lemma Q7Prime()
    ensures Prime(Q7)
  {
    hide IsPower, Prime;
    Q7Order(32301, 3797, 531581);
    Q8Prime();
    PrimeByOrder(531581, 3797, 32301, 50673, 3079);
  }

  lemma Q6Order(b: int, n: nat, m: int)
    requires b == 921659 && n == 2551 && m == 1224481
    ensures IsPower(b, n, m, 1)
  {
    hide IsPower;
    ZeroPower(921659, 1224481);
    SquareTimes(921659, 0, 1224481, 1, 921659);
    Square(921659, 1, 1224481, 921659, 1006075);
    Square(921659, 2, 1224481, 1006075, 299000);
    SquareTimes(921659, 4, 1224481, 299000, 1085945);
    SquareTimes(921659, 9, 1224481, 1085945, 301728);
    SquareTimes(921659, 19, 1224481, 301728, 886815);
    SquareTimes(921659, 39, 1224481, 886815, 864370);
    SquareTimes(921659, 79, 1224481, 864370, 354866);
    Square(921659, 159, 1224481, 354866, 578473);
    SquareTimes(921659, 318, 1224481, 578473, 774887);
    SquareTimes(921659, 637, 1224481, 774887, 75479);
    SquareTimes(921659, 1275, 1224481, 75479, 1);
  }

  lemma Q6Prime()
    ensures Prime(Q6)
  {
    hide IsPower, Prime;
    Q6Order(921659, 2551, 1224481);
    P2551Prime();
    PrimeByOrder(1224481, 2551, 921659, 1100631, 828437);
  }

  lemma Q5First(b: int, n: nat, m: int)
    requires b == 896025394887893 && n == 531581 && m == 1257559732178653
    ensures IsPower(b, n, m, 1252739704402215)
  {
    hide IsPower;
    ZeroPower(896025394887893, 1257559732178653);
    SquareTimes(896025394887893, 0, 1257559732178653, 1, 896025394887893);
    Square(896025394887893, 1, 1257559732178653, 896025394887893, 1054499437575502);
    Square(896025394887893, 2, 1257559732178653, 1054499437575502, 702990646063706);
    Square(896025394887893, 4, 1257559732178653, 702990646063706, 1090861615079504);
    Square(896025394887893, 8, 1257559732178653, 1090861615079504, 799682207835040);
    Square(896025394887893, 16, 1257559732178653, 799682207835040, 984234580166841);
    Square(896025394887893, 32, 1257559732178653, 984234580166841, 268430577430870);
    SquareTimes(896025394887893, 64, 1257559732178653, 268430577430870, 74631756278107);
    SquareTimes(896025394887893, 129, 1257559732178653, 74631756278107, 1146628502373477);
    SquareTimes(896025394887893, 259, 1257559732178653, 1146628502373477, 622377837252766);
    Square(896025394887893, 519, 1257559732178653, 622377837252766, 52463645144342);
    Square(896025394887893, 1038, 1257559732178653, 52463645144342, 243879194117939);
    Square(896025394887893, 2076, 1257559732178653, 243879194117939, 277578517246185);
    SquareTimes(896025394887893, 4152, 1257559732178653, 277578517246185, 512644134293054);
    SquareTimes(896025394887893, 8305, 1257559732178653, 512644134293054, 227913030386330);
    SquareTimes(896025394887893, 16611, 1257559732178653, 227913030386330, 534978130226260);
    SquareTimes(896025394887893, 33223, 1257559732178653, 534978130226260, 969102788335822);
    SquareTimes(896025394887893, 66447, 1257559732178653, 969102788335822, 398785412843792);
    Square(896025394887893, 132895, 1257559732178653, 398785412843792, 283628601019286);
    SquareTimes(896025394887893, 265790, 1257559732178653, 283628601019286, 1252739704402215);
  }

  lemma Q5SecondPart1(b: int, n: nat, m: int)
    requires b == 896025394887893 && n == 612240 && m == 1257559732178653
    ensures IsPower(b, n, m, 152553792118538)
  {
    hide IsPower;
    ZeroPower(896025394887893, 1257559732178653);
    SquareTimes(896025394887893, 0, 1257559732178653, 1, 896025394887893);
    Square(896025394887893, 1, 1257559732178653, 896025394887893, 1054499437575502);
    Square(896025394887893, 2, 1257559732178653, 1054499437575502, 702990646063706);
    SquareTimes(896025394887893, 4, 1257559732178653, 702990646063706, 421547746255874);
    Square(896025394887893, 9, 1257559732178653, 421547746255874, 959737177506496);
    SquareTimes(896025394887893, 18, 1257559732178653, 959737177506496, 1103325372773744);
    Square(896025394887893, 37, 1257559732178653, 1103325372773744, 1142326534018513);
    SquareTimes(896025394887893, 74, 1257559732178653, 1142326534018513, 634180503043411);
    Square(896025394887893, 149, 1257559732178653, 634180503043411, 354232105446919);
    SquareTimes(896025394887893, 298, 1257559732178653, 354232105446919, 832361264641104);
    SquareTimes(896025394887893, 597, 1257559732178653, 832361264641104, 774519633913830);
    SquareTimes(896025394887893, 1195, 1257559732178653, 774519633913830, 241838292620443);
    SquareTimes(896025394887893, 2391, 1257559732178653, 241838292620443, 14639074590403);
    Square(896025394887893, 4783, 1257559732178653, 14639074590403, 1145832418951856);
    Square(896025394887893, 9566, 1257559732178653, 1145832418951856, 355197527602092);
    SquareTimes(896025394887893, 19132, 1257559732178653, 355197527602092, 810854764709287);
    Square(896025394887893, 38265, 1257559732178653, 810854764709287, 214252104824135);
    Square(896025394887893, 76530, 1257559732178653, 214252104824135, 917812438963475);
    Square(896025394887893, 153060, 1257559732178653, 917812438963475, 1235796521145358);
    Square(896025394887893, 306120, 1257559732178653, 1235796521145358, 152553792118538);
  }

  lemma Q5Second(b: int, n: nat, m: int)
    requires b == 896025394887893 && n == 1224481 && m == 1257559732178653
    ensures IsPower(b, n, m, 1139842034583224)
  {
    hide IsPower;
    Q5SecondPart1(896025394887893, 612240, 1257559732178653);
    SquareTimes(896025394887893, 612240, 1257559732178653, 152553792118538, 1139842034583224);
  }

  lemma Q5Order(b: int, n: nat, m: int)
    requires b == 1139842034583224 && n == 531581 && m == 1257559732178653
    ensures IsPower(b, n, m, 1)
  {
    hide IsPower;
    ZeroPower(1139842034583224, 1257559732178653);
    SquareTimes(1139842034583224, 0, 1257559732178653, 1, 1139842034583224);
    Square(1139842034583224, 1, 1257559732178653, 1139842034583224, 1139977755025461);
    Square(1139842034583224, 2, 1257559732178653, 1139977755025461, 192395673674192);
    Square(1139842034583224, 4, 1257559732178653, 192395673674192, 658053996960579);
    Square(1139842034583224, 8, 1257559732178653, 658053996960579, 543127140101466);
    Square(1139842034583224, 16, 1257559732178653, 543127140101466, 1063224506480868);
    Square(1139842034583224, 32, 1257559732178653, 1063224506480868, 1252138906579787);
    SquareTimes(1139842034583224, 64, 1257559732178653, 1252138906579787, 1216608398631704);
    SquareTimes(1139842034583224, 129, 1257559732178653, 1216608398631704, 1063019505097145);
    SquareTimes(1139842034583224, 259, 1257559732178653, 1063019505097145, 293983316432057);
    Square(1139842034583224, 519, 1257559732178653, 293983316432057, 851973636416819);
    Square(1139842034583224, 1038, 1257559732178653, 851973636416819, 752171299039830);
    Square(1139842034583224, 2076, 1257559732178653, 752171299039830, 405881082464238);
    SquareTimes(1139842034583224, 4152, 1257559732178653, 405881082464238, 259249366487887);
    SquareTimes(1139842034583224, 8305, 1257559732178653, 259249366487887, 659687457177174);
    SquareTimes(1139842034583224, 16611, 1257559732178653, 659687457177174, 190863417531040);
    SquareTimes(1139842034583224, 33223, 1257559732178653, 190863417531040, 1104034023393971);
    SquareTimes(1139842034583224, 66447, 1257559732178653, 1104034023393971, 31802007860341);
    Square(1139842034583224, 132895, 1257559732178653, 31802007860341, 887747802346545);
    SquareTimes(1139842034583224, 265790, 1257559732178653, 887747802346545, 1);
  }

  lemma Q5Prime()
    ensures Prime(Q5)
  {
    hide IsPower, Prime;
    Q5First(896025394887893, 531581, 1257559732178653);
    Q5Second(896025394887893, 1224481, 1257559732178653);
    Q5Order(1139842034583224, 531581, 1257559732178653);
    Q7Prime();
    Q6Prime();
    PrimeByTwo(1257559732178653, 531581, 1224481, 896025394887893, 1252739704402215, 790900187493841, 787868792026441,
      1139842034583224, 212927577457398, 192995844966701);
  }

  lemma Q4OrderPart1(b: int, n: nat, m: int)
    requires b == 415787812636281767 && n == 585596 && m == 4434155615661930479
    ensures IsPower(b, n, m, 535505810993778699)
  {
    hide IsPower;
    ZeroPower(415787812636281767, 4434155615661930479);
    SquareTimes(415787812636281767, 0, 4434155615661930479, 1, 415787812636281767);
    Square(415787812636281767, 1, 4434155615661930479, 415787812636281767, 3100996284172897299);
    Square(415787812636281767, 2, 4434155615661930479, 3100996284172897299, 1773242256918920821);
    Square(415787812636281767, 4, 4434155615661930479, 1773242256918920821, 1145512105644223272);
    SquareTimes(415787812636281767, 8, 4434155615661930479, 1145512105644223272, 191371067995100572);
    SquareTimes(415787812636281767, 17, 4434155615661930479, 191371067995100572, 3407277681003375638);
    SquareTimes(415787812636281767, 35, 4434155615661930479, 3407277681003375638, 214101093313304956);
    Square(415787812636281767, 71, 4434155615661930479, 214101093313304956, 2838087264384559642);
    SquareTimes(415787812636281767, 142, 4434155615661930479, 2838087264384559642, 2678802059063434682);
    SquareTimes(415787812636281767, 285, 4434155615661930479, 2678802059063434682, 1441625947344711542);
    SquareTimes(415787812636281767, 571, 4434155615661930479, 1441625947344711542, 1677242294580461517);
    SquareTimes(415787812636281767, 1143, 4434155615661930479, 1677242294580461517, 2025415758172895046);
    Square(415787812636281767, 2287, 4434155615661930479, 2025415758172895046, 3519255193000228959);
    SquareTimes(415787812636281767, 4574, 4434155615661930479, 3519255193000228959, 121430195211088833);
    SquareTimes(415787812636281767, 9149, 4434155615661930479, 121430195211088833, 4159545457389586954);
    SquareTimes(415787812636281767, 18299, 4434155615661930479, 4159545457389586954, 3110892756709774055);
    SquareTimes(415787812636281767, 36599, 4434155615661930479, 3110892756709774055, 864418649578486459);
    SquareTimes(415787812636281767, 73199, 4434155615661930479, 864418649578486459, 660551860479302489);
    Square(415787812636281767, 146399, 4434155615661930479, 660551860479302489, 701885220790377089);
    Square(415787812636281767, 292798, 4434155615661930479, 701885220790377089, 535505810993778699);
  }

  lemma Q4OrderPart2(b: int, n: nat, m: int)
    requires b == 415787812636281767 && n == 614042837977 && m == 4434155615661930479
    ensures IsPower(b, n, m, 850405745392977898)
  {
    hide IsPower;
    Q4OrderPart1(415787812636281767, 585596, 4434155615661930479);
    SquareTimes(415787812636281767, 585596, 4434155615661930479, 535505810993778699, 161541514745606027);
    SquareTimes(415787812636281767, 1171193, 4434155615661930479, 161541514745606027, 637840665186367947);
    SquareTimes(415787812636281767, 2342387, 4434155615661930479, 637840665186367947, 2501186697341811662);
    Square(415787812636281767, 4684775, 4434155615661930479, 2501186697341811662, 1075468136614072462);
    Square(415787812636281767, 9369550, 4434155615661930479, 1075468136614072462, 2202897038630886285);
    Square(415787812636281767, 18739100, 4434155615661930479, 2202897038630886285, 551760777331345475);
    SquareTimes(415787812636281767, 37478200, 4434155615661930479, 551760777331345475, 1755561346417838566);
    Square(415787812636281767, 74956401, 4434155615661930479, 1755561346417838566, 4085330917847097921);
    Square(415787812636281767, 149912802, 4434155615661930479, 4085330917847097921, 4057194569041517808);
    Square(415787812636281767, 299825604, 4434155615661930479, 4057194569041517808, 3603580345089794133);
    SquareTimes(415787812636281767, 599651208, 4434155615661930479, 3603580345089794133, 3540191439498418012);
    SquareTimes(415787812636281767, 1199302417, 4434155615661930479, 3540191439498418012, 1535460892319864632);
    SquareTimes(415787812636281767, 2398604835, 4434155615661930479, 1535460892319864632, 846233425539415078);
    SquareTimes(415787812636281767, 4797209671, 4434155615661930479, 846233425539415078, 3904290686882816099);
    Square(415787812636281767, 9594419343, 4434155615661930479, 3904290686882816099, 458810682590901301);
    SquareTimes(415787812636281767, 19188838686, 4434155615661930479, 458810682590901301, 1242140138381043163);
    SquareTimes(415787812636281767, 38377677373, 4434155615661930479, 1242140138381043163, 3572748445503422236);
    Square(415787812636281767, 76755354747, 4434155615661930479, 3572748445503422236, 1878626325531317407);
    Square(415787812636281767, 153510709494, 4434155615661930479, 1878626325531317407, 2223371858888708539);
    SquareTimes(415787812636281767, 307021418988, 4434155615661930479, 2223371858888708539, 850405745392977898);
  }

  lemma Q4Order(b: int, n: nat, m: int)
    requires b == 415787812636281767 && n == 1257559732178653 && m == 4434155615661930479
    ensures IsPower(b, n, m, 1)
  {
    hide IsPower;
    Q4OrderPart2(415787812636281767, 614042837977, 4434155615661930479);
    SquareTimes(415787812636281767, 614042837977, 4434155615661930479, 850405745392977898, 1138951241107191630);
    SquareTimes(415787812636281767, 1228085675955, 4434155615661930479, 1138951241107191630, 4391060440194520683);
    Square(415787812636281767, 2456171351911, 4434155615661930479, 4391060440194520683, 1072781130921906861);
    SquareTimes(415787812636281767, 4912342703822, 4434155615661930479, 1072781130921906861, 304295795678854238);
    SquareTimes(415787812636281767, 9824685407645, 4434155615661930479, 304295795678854238, 4417639776943714551);
    Square(415787812636281767, 19649370815291, 4434155615661930479, 4417639776943714551, 3046186254313109970);
    SquareTimes(415787812636281767, 39298741630582, 4434155615661930479, 3046186254313109970, 1059822737060017179);
    SquareTimes(415787812636281767, 78597483261165, 4434155615661930479, 1059822737060017179, 1841445610388449610);
    SquareTimes(415787812636281767, 157194966522331, 4434155615661930479, 1841445610388449610, 2525937638201312080);
    Square(415787812636281767, 314389933044663, 4434155615661930479, 2525937638201312080, 3809079382358566196);
    SquareTimes(415787812636281767, 628779866089326, 4434155615661930479, 3809079382358566196, 1);
  }

  lemma Q4Prime()
    ensures Prime(Q4)
  {
    hide IsPower, Prime;
    Q4Order(415787812636281767, 1257559732178653, 4434155615661930479);
    Q5Prime();
    PrimeByOrder(4434155615661930479, 1257559732178653, 415787812636281767, 1010501025739283171, 94754006754933215);
  }

  lemma Q3OrderPart1(b: int, n: nat, m: int)
    requires b == 81982237619807054769897707 && n == 1008210 && m == 172054593956031949258510691
    ensures IsPower(b, n, m, 72855311472385651364577984)
  {
    hide IsPower;
    ZeroPower(81982237619807054769897707, 172054593956031949258510691);
    SquareTimes(81982237619807054769897707, 0, 172054593956031949258510691, 1, 81982237619807054769897707);
    SquareTimes(81982237619807054769897707, 1, 172054593956031949258510691, 81982237619807054769897707,
      153579152715501658428629531);
    SquareTimes(81982237619807054769897707, 3, 172054593956031949258510691, 153579152715501658428629531,
      167814721527529465849429569);
    SquareTimes(81982237619807054769897707, 7, 172054593956031949258510691, 167814721527529465849429569,
      48289058518399576327659775);
    Square(81982237619807054769897707, 15, 172054593956031949258510691, 48289058518399576327659775,
      59794813390092532697763188);
    SquareTimes(81982237619807054769897707, 30, 172054593956031949258510691, 59794813390092532697763188,
      154289148141410286668792477);
    SquareTimes(81982237619807054769897707, 61, 172054593956031949258510691, 154289148141410286668792477,
      144826008405472798401045507);
    Square(81982237619807054769897707, 123, 172054593956031949258510691, 144826008405472798401045507,
      159032709990148984649131256);
    Square(81982237619807054769897707, 246, 172054593956031949258510691, 159032709990148984649131256,
      79683857455852187904478325);
    Square(81982237619807054769897707, 492, 172054593956031949258510691, 79683857455852187904478325,
      159143041489193602642851483);
    SquareTimes(81982237619807054769897707, 984, 172054593956031949258510691, 159143041489193602642851483,
      52535660307367689004073594);
    Square(81982237619807054769897707, 1969, 172054593956031949258510691, 52535660307367689004073594,
      8105645884430937486288908);
    Square(81982237619807054769897707, 3938, 172054593956031949258510691, 8105645884430937486288908,
      140725908371461146638676219);
    SquareTimes(81982237619807054769897707, 7876, 172054593956031949258510691, 140725908371461146638676219,
      102092554157199242347225069);
    Square(81982237619807054769897707, 15753, 172054593956031949258510691, 102092554157199242347225069,
      93565392158498993608176584);
    SquareTimes(81982237619807054769897707, 31506, 172054593956031949258510691, 93565392158498993608176584,
      151096039430635142899575208);
    Square(81982237619807054769897707, 63013, 172054593956031949258510691, 151096039430635142899575208,
      170741126879681559209576644);
    Square(81982237619807054769897707, 126026, 172054593956031949258510691, 170741126879681559209576644,
      164598567888031770776243655);
    SquareTimes(81982237619807054769897707, 252052, 172054593956031949258510691, 164598567888031770776243655,
      127561181206595508224978510);
    Square(81982237619807054769897707, 504105, 172054593956031949258510691, 127561181206595508224978510,
      72855311472385651364577984);
  }

  lemma Q3OrderPart2(b: int, n: nat, m: int)
    requires b == 81982237619807054769897707 && n == 1057185081401 && m == 172054593956031949258510691
    ensures IsPower(b, n, m, 82770254184079949174038560)
  {
    hide IsPower;
    Q3OrderPart1(81982237619807054769897707, 1008210, 172054593956031949258510691);
    Square(81982237619807054769897707, 1008210, 172054593956031949258510691, 72855311472385651364577984,
      151215453489527611882818370);
    SquareTimes(81982237619807054769897707, 2016420, 172054593956031949258510691, 151215453489527611882818370,
      47214200796341353487635316);
    Square(81982237619807054769897707, 4032841, 172054593956031949258510691, 47214200796341353487635316,
      150228514182530418758034487);
    Square(81982237619807054769897707, 8065682, 172054593956031949258510691, 150228514182530418758034487,
      70825796587000559605299352);
    Square(81982237619807054769897707, 16131364, 172054593956031949258510691, 70825796587000559605299352,
      56450327217502615080565348);
    Square(81982237619807054769897707, 32262728, 172054593956031949258510691, 56450327217502615080565348,
      33022382191202836601619314);
    SquareTimes(81982237619807054769897707, 64525456, 172054593956031949258510691, 33022382191202836601619314,
      14589050751940438539000744);
    Square(81982237619807054769897707, 129050913, 172054593956031949258510691, 14589050751940438539000744,
      57552129677221337611619651);
    SquareTimes(81982237619807054769897707, 258101826, 172054593956031949258510691, 57552129677221337611619651,
      29328758471794249968821001);
    Square(81982237619807054769897707, 516203653, 172054593956031949258510691, 29328758471794249968821001,
      40934084723838682207140931);
    Square(81982237619807054769897707, 1032407306, 172054593956031949258510691, 40934084723838682207140931,
      136243923403916848434769691);
    Square(81982237619807054769897707, 2064814612, 172054593956031949258510691, 136243923403916848434769691,
      83194925161226630722618572);
    Square(81982237619807054769897707, 4129629224, 172054593956031949258510691, 83194925161226630722618572,
      151918532565301665696193658);
    Square(81982237619807054769897707, 8259258448, 172054593956031949258510691, 151918532565301665696193658,
      114022955710911814312406153);
    SquareTimes(81982237619807054769897707, 16518516896, 172054593956031949258510691, 114022955710911814312406153,
      112204980075004817160058048);
    SquareTimes(81982237619807054769897707, 33037033793, 172054593956031949258510691, 112204980075004817160058048,
      87495891853485353579233063);
    SquareTimes(81982237619807054769897707, 66074067587, 172054593956031949258510691, 87495891853485353579233063,
      121409756575586998122438069);
    Square(81982237619807054769897707, 132148135175, 172054593956031949258510691, 121409756575586998122438069,
      19096673214781034833796235);
    Square(81982237619807054769897707, 264296270350, 172054593956031949258510691, 19096673214781034833796235,
      59458510840728682620161164);
    SquareTimes(81982237619807054769897707, 528592540700, 172054593956031949258510691, 59458510840728682620161164,
      82770254184079949174038560);
  }

  lemma Q3OrderPart3(b: int, n: nat, m: int)
    requires b == 81982237619807054769897707 && n == 1108538903915482619 && m == 172054593956031949258510691
    ensures IsPower(b, n, m, 41516304628964753654393039)
  {
    hide IsPower;
    Q3OrderPart2(81982237619807054769897707, 1057185081401, 172054593956031949258510691);
    Square(81982237619807054769897707, 1057185081401, 172054593956031949258510691, 82770254184079949174038560,
      2996541156987094628609952);
    SquareTimes(81982237619807054769897707, 2114370162802, 172054593956031949258510691, 2996541156987094628609952,
      58802870777818717957471700);
    Square(81982237619807054769897707, 4228740325605, 172054593956031949258510691, 58802870777818717957471700,
      142619625909171558448502455);
    SquareTimes(81982237619807054769897707, 8457480651210, 172054593956031949258510691, 142619625909171558448502455,
      156449210348024975103478519);
    Square(81982237619807054769897707, 16914961302421, 172054593956031949258510691, 156449210348024975103478519,
      19628997837548694774478452);
    SquareTimes(81982237619807054769897707, 33829922604842, 172054593956031949258510691, 19628997837548694774478452,
      106987526152441206875859902);
    Square(81982237619807054769897707, 67659845209685, 172054593956031949258510691, 106987526152441206875859902,
      13265178877323161408848792);
    Square(81982237619807054769897707, 135319690419370, 172054593956031949258510691, 13265178877323161408848792,
      67935844103917747439254993);
    SquareTimes(81982237619807054769897707, 270639380838740, 172054593956031949258510691, 67935844103917747439254993,
      75896190907074230308555495);
    SquareTimes(81982237619807054769897707, 541278761677481, 172054593956031949258510691, 75896190907074230308555495,
      109731237503255908776026358);
    Square(81982237619807054769897707, 1082557523354963, 172054593956031949258510691, 109731237503255908776026358,
      129014045317846846525321596);
    SquareTimes(81982237619807054769897707, 2165115046709926, 172054593956031949258510691, 129014045317846846525321596,
      72669391512255040754211041);
    SquareTimes(81982237619807054769897707, 4330230093419853, 172054593956031949258510691, 72669391512255040754211041,
      90097334189718058761034045);
    SquareTimes(81982237619807054769897707, 8660460186839707, 172054593956031949258510691, 90097334189718058761034045,
      2369291506058493784453998);
    SquareTimes(81982237619807054769897707, 17320920373679415, 172054593956031949258510691, 2369291506058493784453998,
      38378181680977978705149452);
    SquareTimes(81982237619807054769897707, 34641840747358831, 172054593956031949258510691, 38378181680977978705149452,
      18428159699043902077161395);
    SquareTimes(81982237619807054769897707, 69283681494717663, 172054593956031949258510691, 18428159699043902077161395,
      111364442547125201442713719);
    Square(81982237619807054769897707, 138567362989435327, 172054593956031949258510691, 111364442547125201442713719,
      97556959874257394643084834);
    SquareTimes(81982237619807054769897707, 277134725978870654, 172054593956031949258510691, 97556959874257394643084834,
      26319842299224446122613173);
    SquareTimes(81982237619807054769897707, 554269451957741309, 172054593956031949258510691, 26319842299224446122613173,
      41516304628964753654393039);
  }

  lemma Q3Order(b: int, n: nat, m: int)
    requires b == 81982237619807054769897707 && n == 4434155615661930479 && m == 172054593956031949258510691
    ensures IsPower(b, n, m, 1)
  {
    hide IsPower;
    Q3OrderPart3(81982237619807054769897707, 1108538903915482619, 172054593956031949258510691);
    SquareTimes(81982237619807054769897707, 1108538903915482619, 172054593956031949258510691,
      41516304628964753654393039, 68630961674997079174996703);
    SquareTimes(81982237619807054769897707, 2217077807830965239, 172054593956031949258510691,
      68630961674997079174996703, 1);
  }

  lemma Q3Prime()
    ensures Prime(Q3)
  {
    hide IsPower, Prime;
    Q3Order(81982237619807054769897707, 4434155615661930479, 172054593956031949258510691);
    Q4Prime();
    PrimeByOrder(172054593956031949258510691, 4434155615661930479, 81982237619807054769897707,
      154275350521713489305385904, 73510611687487158067405653);
  }

  lemma Q2OrderPart1(b: int, n: nat, m: int)
    requires b == 9148758478138211201771971577098600188172 && n == 582943
    requires m == 19757330305831588566944191468367130476339
    ensures IsPower(b, n, m, 14306935111055188341908699466257956164563)
  {
    hide IsPower;
    ZeroPower(9148758478138211201771971577098600188172, 19757330305831588566944191468367130476339);
    SquareTimes(9148758478138211201771971577098600188172, 0, 19757330305831588566944191468367130476339, 1,
      9148758478138211201771971577098600188172);
    Square(9148758478138211201771971577098600188172, 1, 19757330305831588566944191468367130476339,
      9148758478138211201771971577098600188172, 17452856350318614524776937116527811289870);
    Square(9148758478138211201771971577098600188172, 2, 19757330305831588566944191468367130476339,
      17452856350318614524776937116527811289870, 15256330496231587582282042909088020009852);
    Square(9148758478138211201771971577098600188172, 4, 19757330305831588566944191468367130476339,
      15256330496231587582282042909088020009852, 7186465123911483365735852593675917349660);
    SquareTimes(9148758478138211201771971577098600188172, 8, 19757330305831588566944191468367130476339,
      7186465123911483365735852593675917349660, 2494169446684761869929460125062934632729);
    SquareTimes(9148758478138211201771971577098600188172, 17, 19757330305831588566944191468367130476339,
      2494169446684761869929460125062934632729, 2132088531979932106953125494754670472926);
    SquareTimes(9148758478138211201771971577098600188172, 35, 19757330305831588566944191468367130476339,
      2132088531979932106953125494754670472926, 3041151066232241312849026766082165994865);
    Square(9148758478138211201771971577098600188172, 71, 19757330305831588566944191468367130476339,
      3041151066232241312849026766082165994865, 4026350534696373438513755681604920933671);
    Square(9148758478138211201771971577098600188172, 142, 19757330305831588566944191468367130476339,
      4026350534696373438513755681604920933671, 10223935246787310469726904505792055077430);
    SquareTimes(9148758478138211201771971577098600188172, 284, 19757330305831588566944191468367130476339,
      10223935246787310469726904505792055077430, 9322935913870068838441262613025143742995);
    Square(9148758478138211201771971577098600188172, 569, 19757330305831588566944191468367130476339,
      9322935913870068838441262613025143742995, 18150536280503717997844774112577289339282);
    SquareTimes(9148758478138211201771971577098600188172, 1138, 19757330305831588566944191468367130476339,
      18150536280503717997844774112577289339282, 4570051278230293182343865036963093096940);
    Square(9148758478138211201771971577098600188172, 2277, 19757330305831588566944191468367130476339,
      4570051278230293182343865036963093096940, 12410437727644433342902949768458675024158);
    Square(9148758478138211201771971577098600188172, 4554, 19757330305831588566944191468367130476339,
      12410437727644433342902949768458675024158, 15792211595920519137762945996642304742841);
    Square(9148758478138211201771971577098600188172, 9108, 19757330305831588566944191468367130476339,
      15792211595920519137762945996642304742841, 17102211454128093695963179719948506856347);
    SquareTimes(9148758478138211201771971577098600188172, 18216, 19757330305831588566944191468367130476339,
      17102211454128093695963179719948506856347, 6578389329972392806944640871377324706129);
    SquareTimes(9148758478138211201771971577098600188172, 36433, 19757330305831588566944191468367130476339,
      6578389329972392806944640871377324706129, 10362146982508540274383117612657036227066);
    SquareTimes(9148758478138211201771971577098600188172, 72867, 19757330305831588566944191468367130476339,
      10362146982508540274383117612657036227066, 15549594218231149936475137092598539344001);
    SquareTimes(9148758478138211201771971577098600188172, 145735, 19757330305831588566944191468367130476339,
      15549594218231149936475137092598539344001, 4710611264995645990396135466613360677961);
    SquareTimes(9148758478138211201771971577098600188172, 291471, 19757330305831588566944191468367130476339,
      4710611264995645990396135466613360677961, 14306935111055188341908699466257956164563);
  }

  lemma Q2OrderPart2(b: int, n: nat, m: int)
    requires b == 9148758478138211201771971577098600188172 && n == 611260709448
    requires m == 19757330305831588566944191468367130476339
    ensures IsPower(b, n, m, 8358531348907013068593886862012664615683)
  {
    hide IsPower;
    Q2OrderPart1(9148758478138211201771971577098600188172, 582943, 19757330305831588566944191468367130476339);
    SquareTimes(9148758478138211201771971577098600188172, 582943, 19757330305831588566944191468367130476339,
      14306935111055188341908699466257956164563, 12054212035985357958569991380413778485311);
    Square(9148758478138211201771971577098600188172, 1165887, 19757330305831588566944191468367130476339,
      12054212035985357958569991380413778485311, 7014420713638344142162941540823364786);
    SquareTimes(9148758478138211201771971577098600188172, 2331774, 19757330305831588566944191468367130476339,
      7014420713638344142162941540823364786, 9871318903626800018801925127128344946094);
    Square(9148758478138211201771971577098600188172, 4663549, 19757330305831588566944191468367130476339,
      9871318903626800018801925127128344946094, 16758244956911997799956314712130823653202);
    Square(9148758478138211201771971577098600188172, 9327098, 19757330305831588566944191468367130476339,
      16758244956911997799956314712130823653202, 3087644085772852067253660218464796511251);
    Square(9148758478138211201771971577098600188172, 18654196, 19757330305831588566944191468367130476339,
      3087644085772852067253660218464796511251, 6488084572568393398662140446932334101674);
    SquareTimes(9148758478138211201771971577098600188172, 37308392, 19757330305831588566944191468367130476339,
      6488084572568393398662140446932334101674, 2531696698240161786759645569454066215068);
    SquareTimes(9148758478138211201771971577098600188172, 74616785, 19757330305831588566944191468367130476339,
      2531696698240161786759645569454066215068, 2445393720907838733323005951380984037488);
    SquareTimes(9148758478138211201771971577098600188172, 149233571, 19757330305831588566944191468367130476339,
      2445393720907838733323005951380984037488, 9932424461401412762326196227066431568723);
    Square(9148758478138211201771971577098600188172, 298467143, 19757330305831588566944191468367130476339,
      9932424461401412762326196227066431568723, 8918366516391913661825875591065344187388);
    SquareTimes(9148758478138211201771971577098600188172, 596934286, 19757330305831588566944191468367130476339,
      8918366516391913661825875591065344187388, 9950984845626339808167632144562359781912);
    Square(9148758478138211201771971577098600188172, 1193868573, 19757330305831588566944191468367130476339,
      9950984845626339808167632144562359781912, 18757685180743459031793611964303916771297);
    Square(9148758478138211201771971577098600188172, 2387737146, 19757330305831588566944191468367130476339,
      18757685180743459031793611964303916771297, 1174784736088035504326268094920471841438);
    SquareTimes(9148758478138211201771971577098600188172, 4775474292, 19757330305831588566944191468367130476339,
      1174784736088035504326268094920471841438, 8447080979295009311640669415368405227716);
    Square(9148758478138211201771971577098600188172, 9550948585, 19757330305831588566944191468367130476339,
      8447080979295009311640669415368405227716, 19215786837807870876373472504002329204075);
    Square(9148758478138211201771971577098600188172, 19101897170, 19757330305831588566944191468367130476339,
      19215786837807870876373472504002329204075, 5525864191423685667108386084773996767855);
    SquareTimes(9148758478138211201771971577098600188172, 38203794340, 19757330305831588566944191468367130476339,
      5525864191423685667108386084773996767855, 3605680900520242195309378717180506632160);
    Square(9148758478138211201771971577098600188172, 76407588681, 19757330305831588566944191468367130476339,
      3605680900520242195309378717180506632160, 16419827784795524034922106934109693108884);
    Square(9148758478138211201771971577098600188172, 152815177362, 19757330305831588566944191468367130476339,
      16419827784795524034922106934109693108884, 13306821770082688874374288093341548516980);
    Square(9148758478138211201771971577098600188172, 305630354724, 19757330305831588566944191468367130476339,
      13306821770082688874374288093341548516980, 8358531348907013068593886862012664615683);
  }

  lemma Q2OrderPart3(b: int, n: nat, m: int)
    requires b == 9148758478138211201771971577098600188172 && n == 640953309670209695
    requires m == 19757330305831588566944191468367130476339
    ensures IsPower(b, n, m, 7907769673089166862526301954901284385436)
  {
    hide IsPower;
    Q2OrderPart2(9148758478138211201771971577098600188172, 611260709448, 19757330305831588566944191468367130476339);
    Square(9148758478138211201771971577098600188172, 611260709448, 19757330305831588566944191468367130476339,
      8358531348907013068593886862012664615683, 3219450550697549974852193757618754684814);
    Square(9148758478138211201771971577098600188172, 1222521418896, 19757330305831588566944191468367130476339,
      3219450550697549974852193757618754684814, 16005496718170176413436694437827660480340);
    Square(9148758478138211201771971577098600188172, 2445042837792, 19757330305831588566944191468367130476339,
      16005496718170176413436694437827660480340, 17116265634804989486888178135839906160248);
    Square(9148758478138211201771971577098600188172, 4890085675584, 19757330305831588566944191468367130476339,
      17116265634804989486888178135839906160248, 13258456566382802467363685986149708631668);
    SquareTimes(9148758478138211201771971577098600188172, 9780171351168, 19757330305831588566944191468367130476339,
      13258456566382802467363685986149708631668, 12198975744522653049203274081465629019032);
    SquareTimes(9148758478138211201771971577098600188172, 19560342702337, 19757330305831588566944191468367130476339,
      12198975744522653049203274081465629019032, 16711167018326391839730685967425381148079);
    SquareTimes(9148758478138211201771971577098600188172, 39120685404675, 19757330305831588566944191468367130476339,
      16711167018326391839730685967425381148079, 1631195712726749805845753719208396366912);
    SquareTimes(9148758478138211201771971577098600188172, 78241370809351, 19757330305831588566944191468367130476339,
      1631195712726749805845753719208396366912, 13560738092743535025475423230548543758937);
    SquareTimes(9148758478138211201771971577098600188172, 156482741618703, 19757330305831588566944191468367130476339,
      13560738092743535025475423230548543758937, 2168288317965443905005900477412346505429);
    Square(9148758478138211201771971577098600188172, 312965483237407, 19757330305831588566944191468367130476339,
      2168288317965443905005900477412346505429, 1204438558877154909459327933309371357285);
    Square(9148758478138211201771971577098600188172, 625930966474814, 19757330305831588566944191468367130476339,
      1204438558877154909459327933309371357285, 6820381475385571486452246194232266314009);
    Square(9148758478138211201771971577098600188172, 1251861932949628, 19757330305831588566944191468367130476339,
      6820381475385571486452246194232266314009, 8656712996510835566909771721587016864562);
    SquareTimes(9148758478138211201771971577098600188172, 2503723865899256, 19757330305831588566944191468367130476339,
      8656712996510835566909771721587016864562, 17417867900715668653880847548782003149223);
    Square(9148758478138211201771971577098600188172, 5007447731798513, 19757330305831588566944191468367130476339,
      17417867900715668653880847548782003149223, 2158367212976865890182086479308382488126);
    Square(9148758478138211201771971577098600188172, 10014895463597026, 19757330305831588566944191468367130476339,
      2158367212976865890182086479308382488126, 6926264212043825658357106330929936190380);
    SquareTimes(9148758478138211201771971577098600188172, 20029790927194052, 19757330305831588566944191468367130476339,
      6926264212043825658357106330929936190380, 8267911451398568613595142388670423822990);
    SquareTimes(9148758478138211201771971577098600188172, 40059581854388105, 19757330305831588566944191468367130476339,
      8267911451398568613595142388670423822990, 15233055147316592394294422004567892312344);
    SquareTimes(9148758478138211201771971577098600188172, 80119163708776211, 19757330305831588566944191468367130476339,
      15233055147316592394294422004567892312344, 17584510032140963308830297529297688497724);
    SquareTimes(9148758478138211201771971577098600188172, 160238327417552423, 19757330305831588566944191468367130476339,
      17584510032140963308830297529297688497724, 13078642753699995833999869423999741146403);
    SquareTimes(9148758478138211201771971577098600188172, 320476654835104847, 19757330305831588566944191468367130476339,
      13078642753699995833999869423999741146403, 7907769673089166862526301954901284385436);
  }

  lemma Q2OrderPart4(b: int, n: nat, m: int)
    requires b == 9148758478138211201771971577098600188172 && n == 672088257640749801791057
    requires m == 19757330305831588566944191468367130476339
    ensures IsPower(b, n, m, 3581058332261539785328547084402705870877)
  {
    hide IsPower;
    Q2OrderPart3(9148758478138211201771971577098600188172, 640953309670209695,
      19757330305831588566944191468367130476339);
    SquareTimes(9148758478138211201771971577098600188172, 640953309670209695, 19757330305831588566944191468367130476339,
      7907769673089166862526301954901284385436, 19413186630557734259314912838477225489695);
    Square(9148758478138211201771971577098600188172, 1281906619340419391, 19757330305831588566944191468367130476339,
      19413186630557734259314912838477225489695, 17440579358160463369300876413581976331538);
    Square(9148758478138211201771971577098600188172, 2563813238680838782, 19757330305831588566944191468367130476339,
      17440579358160463369300876413581976331538, 16036741233606181452490177031261798786068);
    SquareTimes(9148758478138211201771971577098600188172, 5127626477361677564,
      19757330305831588566944191468367130476339, 16036741233606181452490177031261798786068,
      3690620876896704597439779200915200761344);
    SquareTimes(9148758478138211201771971577098600188172, 10255252954723355129,
      19757330305831588566944191468367130476339, 3690620876896704597439779200915200761344,
      8248916086175474172169080312801713973920);
    SquareTimes(9148758478138211201771971577098600188172, 20510505909446710259,
      19757330305831588566944191468367130476339, 8248916086175474172169080312801713973920,
      7551617746111749160942509267040968705799);
    Square(9148758478138211201771971577098600188172, 41021011818893420519, 19757330305831588566944191468367130476339,
      7551617746111749160942509267040968705799, 7480450669206645991797575910852997445702);
    SquareTimes(9148758478138211201771971577098600188172, 82042023637786841038,
      19757330305831588566944191468367130476339, 7480450669206645991797575910852997445702,
      11573693506535883733031517569668909877170);
    SquareTimes(9148758478138211201771971577098600188172, 164084047275573682077,
      19757330305831588566944191468367130476339, 11573693506535883733031517569668909877170,
      16825528773474459508715620813107294533623);
    SquareTimes(9148758478138211201771971577098600188172, 328168094551147364155,
      19757330305831588566944191468367130476339, 16825528773474459508715620813107294533623,
      10377183235081217899414225510103692856484);
    SquareTimes(9148758478138211201771971577098600188172, 656336189102294728311,
      19757330305831588566944191468367130476339, 10377183235081217899414225510103692856484,
      12914652405598066240343614596379231279474);
    Square(9148758478138211201771971577098600188172, 1312672378204589456623, 19757330305831588566944191468367130476339,
      12914652405598066240343614596379231279474, 8802712626287945887266931270136476300888);
    Square(9148758478138211201771971577098600188172, 2625344756409178913246, 19757330305831588566944191468367130476339,
      8802712626287945887266931270136476300888, 15045667541927555440194096211401265283182);
    SquareTimes(9148758478138211201771971577098600188172, 5250689512818357826492,
      19757330305831588566944191468367130476339, 15045667541927555440194096211401265283182,
      8605733815382187393606992513639306065056);
    Square(9148758478138211201771971577098600188172, 10501379025636715652985, 19757330305831588566944191468367130476339,
      8605733815382187393606992513639306065056, 17537900330181141060833608777859162542613);
    SquareTimes(9148758478138211201771971577098600188172, 21002758051273431305970,
      19757330305831588566944191468367130476339, 17537900330181141060833608777859162542613,
      19398325626256179070939836239045433163874);
    Square(9148758478138211201771971577098600188172, 42005516102546862611941, 19757330305831588566944191468367130476339,
      19398325626256179070939836239045433163874, 18999536686118205708076459474030000148047);
    Square(9148758478138211201771971577098600188172, 84011032205093725223882, 19757330305831588566944191468367130476339,
      18999536686118205708076459474030000148047, 14085306779603317604553452397035365180307);
    Square(9148758478138211201771971577098600188172, 168022064410187450447764,
      19757330305831588566944191468367130476339, 14085306779603317604553452397035365180307,
      1341324029802437097457343225558907495759);
    SquareTimes(9148758478138211201771971577098600188172, 336044128820374900895528,
      19757330305831588566944191468367130476339, 1341324029802437097457343225558907495759,
      3581058332261539785328547084402705870877);
  }

  lemma Q2Order(b: int, n: nat, m: int)
    requires b == 9148758478138211201771971577098600188172 && n == 172054593956031949258510691
    requires m == 19757330305831588566944191468367130476339
    ensures IsPower(b, n, m, 1)
  {
    hide IsPower;
    Q2OrderPart4(9148758478138211201771971577098600188172, 672088257640749801791057,
      19757330305831588566944191468367130476339);
    Square(9148758478138211201771971577098600188172, 672088257640749801791057,
      19757330305831588566944191468367130476339, 3581058332261539785328547084402705870877,
      6516500323222394929084190533573807829460);
    SquareTimes(9148758478138211201771971577098600188172, 1344176515281499603582114,
      19757330305831588566944191468367130476339, 6516500323222394929084190533573807829460,
      10826002675492735322954795059520625694587);
    SquareTimes(9148758478138211201771971577098600188172, 2688353030562999207164229,
      19757330305831588566944191468367130476339, 10826002675492735322954795059520625694587,
      4696048171776980570134823627708477822884);
    Square(9148758478138211201771971577098600188172, 5376706061125998414328459,
      19757330305831588566944191468367130476339, 4696048171776980570134823627708477822884,
      19735764202068961092870567181341045569426);
    Square(9148758478138211201771971577098600188172, 10753412122251996828656918,
      19757330305831588566944191468367130476339, 19735764202068961092870567181341045569426,
      15259351624186530280202145201877611830785);
    Square(9148758478138211201771971577098600188172, 21506824244503993657313836,
      19757330305831588566944191468367130476339, 15259351624186530280202145201877611830785,
      16355648338396861518328361897502131609816);
    SquareTimes(9148758478138211201771971577098600188172, 43013648489007987314627672,
      19757330305831588566944191468367130476339, 16355648338396861518328361897502131609816,
      19048718096193709503748728659744016984059);
    SquareTimes(9148758478138211201771971577098600188172, 86027296978015974629255345,
      19757330305831588566944191468367130476339, 19048718096193709503748728659744016984059, 1);
  }

  lemma Q2Prime()
    ensures Prime(Q2)
  {
    hide IsPower, Prime;
    Q2Order(9148758478138211201771971577098600188172, 172054593956031949258510691,
      19757330305831588566944191468367130476339);
    Q3Prime();
    PrimeByOrder(19757330305831588566944191468367130476339, 172054593956031949258510691,
      9148758478138211201771971577098600188172, 16371654433361644093796961727196399386194,
      7580999557119167215323054323116539631207);
  }

  lemma Q1OrderPart1(b: int, n: nat, m: int)
    requires b == 16384 && n == 951280 && m == 276602624281642239937218680557139826668747
    ensures IsPower(b, n, m, 211491138720364449541493541816222224362956)
  {
    hide IsPower;
    ZeroPower(16384, 276602624281642239937218680557139826668747);
    SquareTimes(16384, 0, 276602624281642239937218680557139826668747, 1, 16384);
    SquareTimes(16384, 1, 276602624281642239937218680557139826668747, 16384, 4398046511104);
    SquareTimes(16384, 3, 276602624281642239937218680557139826668747, 4398046511104, 316912650057057350374175801344);
    Square(16384, 7, 276602624281642239937218680557139826668747, 316912650057057350374175801344,
      128046162491301585682529114334775687094835);
    SquareTimes(16384, 14, 276602624281642239937218680557139826668747, 128046162491301585682529114334775687094835,
      212856644023487045304013853280775616008920);
    Square(16384, 29, 276602624281642239937218680557139826668747, 212856644023487045304013853280775616008920,
      156582828171149672818525621127440707882630);
    Square(16384, 58, 276602624281642239937218680557139826668747, 156582828171149672818525621127440707882630,
      38040715825432232641621273725291558307642);
    Square(16384, 116, 276602624281642239937218680557139826668747, 38040715825432232641621273725291558307642,
      229205397139989240296261408333576042754370);
    Square(16384, 232, 276602624281642239937218680557139826668747, 229205397139989240296261408333576042754370,
      170289275614754799094148000367877744014697);
    Square(16384, 464, 276602624281642239937218680557139826668747, 170289275614754799094148000367877744014697,
      172957589150197174153788676534433232047177);
    SquareTimes(16384, 928, 276602624281642239937218680557139826668747, 172957589150197174153788676534433232047177,
      19078955127170863656147796188307676594413);
    SquareTimes(16384, 1857, 276602624281642239937218680557139826668747, 19078955127170863656147796188307676594413,
      20770972444212697980363469693412888374449);
    SquareTimes(16384, 3715, 276602624281642239937218680557139826668747, 20770972444212697980363469693412888374449,
      207001409788032549794759110919829934146595);
    SquareTimes(16384, 7431, 276602624281642239937218680557139826668747, 207001409788032549794759110919829934146595,
      120378404327176040187716165883278090972766);
    SquareTimes(16384, 14863, 276602624281642239937218680557139826668747, 120378404327176040187716165883278090972766,
      236593179025817197821332484369879609353645);
    SquareTimes(16384, 29727, 276602624281642239937218680557139826668747, 236593179025817197821332484369879609353645,
      185627809385704545742869161440404559835132);
    Square(16384, 59455, 276602624281642239937218680557139826668747, 185627809385704545742869161440404559835132,
      23240114245615629934858104926018847889859);
    Square(16384, 118910, 276602624281642239937218680557139826668747, 23240114245615629934858104926018847889859,
      186287183198737183961899297779414230874639);
    Square(16384, 237820, 276602624281642239937218680557139826668747, 186287183198737183961899297779414230874639,
      110599954263651227414905217420636060211379);
    Square(16384, 475640, 276602624281642239937218680557139826668747, 110599954263651227414905217420636060211379,
      211491138720364449541493541816222224362956);
  }

  lemma Q1OrderPart2(b: int, n: nat, m: int)
    requires b == 16384 && n == 997490270067 && m == 276602624281642239937218680557139826668747
    ensures IsPower(b, n, m, 191381546392458713741872130537713007565714)
  {
    hide IsPower;
    Q1OrderPart1(16384, 951280, 276602624281642239937218680557139826668747);
    SquareTimes(16384, 951280, 276602624281642239937218680557139826668747, 211491138720364449541493541816222224362956,
      65261646349581118816137277634230855004372);
    SquareTimes(16384, 1902561, 276602624281642239937218680557139826668747, 65261646349581118816137277634230855004372,
      142771459008584795968674180506761950001830);
    Square(16384, 3805123, 276602624281642239937218680557139826668747, 142771459008584795968674180506761950001830,
      71097245186706638388972136744249845097541);
    SquareTimes(16384, 7610246, 276602624281642239937218680557139826668747, 71097245186706638388972136744249845097541,
      266647921700855282982795704985623566432148);
    SquareTimes(16384, 15220493, 276602624281642239937218680557139826668747, 266647921700855282982795704985623566432148,
      163766764233466902891097281107076976932637);
    Square(16384, 30440987, 276602624281642239937218680557139826668747, 163766764233466902891097281107076976932637,
      196079291540063951768178782995495790080626);
    Square(16384, 60881974, 276602624281642239937218680557139826668747, 196079291540063951768178782995495790080626,
      269881956793750849871368796194774026601721);
    SquareTimes(16384, 121763948, 276602624281642239937218680557139826668747,
      269881956793750849871368796194774026601721, 158284750911892530443219286961655710763910);
    SquareTimes(16384, 243527897, 276602624281642239937218680557139826668747,
      158284750911892530443219286961655710763910, 67189824080875962507895312628106456735925);
    SquareTimes(16384, 487055795, 276602624281642239937218680557139826668747, 67189824080875962507895312628106456735925,
      186356407135147162941413154352289170380992);
    SquareTimes(16384, 974111591, 276602624281642239937218680557139826668747,
      186356407135147162941413154352289170380992, 169619542662542236968285974226179653555689);
    SquareTimes(16384, 1948223183, 276602624281642239937218680557139826668747,
      169619542662542236968285974226179653555689, 38052488506106986029714663282685421104786);
    Square(16384, 3896446367, 276602624281642239937218680557139826668747, 38052488506106986029714663282685421104786,
      167021008132590084184356188932127109885679);
    SquareTimes(16384, 7792892734, 276602624281642239937218680557139826668747,
      167021008132590084184356188932127109885679, 90724323459230079928976042398717969996625);
    SquareTimes(16384, 15585785469, 276602624281642239937218680557139826668747,
      90724323459230079928976042398717969996625, 53148345495550476185305596061333392472116);
    SquareTimes(16384, 31171570939, 276602624281642239937218680557139826668747,
      53148345495550476185305596061333392472116, 153668302695330190831403109975302717752364);
    Square(16384, 62343141879, 276602624281642239937218680557139826668747, 153668302695330190831403109975302717752364,
      196524524301035589442061411997502693011378);
    Square(16384, 124686283758, 276602624281642239937218680557139826668747, 196524524301035589442061411997502693011378,
      229881456116400381587573961812243291111085);
    SquareTimes(16384, 249372567516, 276602624281642239937218680557139826668747,
      229881456116400381587573961812243291111085, 223083963950463193214476700819162915361907);
    SquareTimes(16384, 498745135033, 276602624281642239937218680557139826668747,
      223083963950463193214476700819162915361907, 191381546392458713741872130537713007565714);
  }

  lemma Q1OrderPart3(b: int, n: nat, m: int)
    requires b == 16384 && n == 1045944357426577346 && m == 276602624281642239937218680557139826668747
    ensures IsPower(b, n, m, 179181359966283914376780111898957016697485)
  {
    hide IsPower;
    Q1OrderPart2(16384, 997490270067, 276602624281642239937218680557139826668747);
    SquareTimes(16384, 997490270067, 276602624281642239937218680557139826668747,
      191381546392458713741872130537713007565714, 40231065550339761575771664234344597570982);
    SquareTimes(16384, 1994980540135, 276602624281642239937218680557139826668747,
      40231065550339761575771664234344597570982, 71527553180435404333214180810588199999093);
    Square(16384, 3989961080271, 276602624281642239937218680557139826668747, 71527553180435404333214180810588199999093,
      177203124340802378142286253664959216816248);
    Square(16384, 7979922160542, 276602624281642239937218680557139826668747, 177203124340802378142286253664959216816248,
      94955108111828857457388406753848630445436);
    Square(16384, 15959844321084, 276602624281642239937218680557139826668747, 94955108111828857457388406753848630445436,
      166354322724186057572616354449790292110274);
    Square(16384, 31919688642168, 276602624281642239937218680557139826668747,
      166354322724186057572616354449790292110274, 181934842475584728327876263625611063288207);
    SquareTimes(16384, 63839377284336, 276602624281642239937218680557139826668747,
      181934842475584728327876263625611063288207, 80539508453353476125564699429400041626822);
    SquareTimes(16384, 127678754568673, 276602624281642239937218680557139826668747,
      80539508453353476125564699429400041626822, 48030225410063040187449148677536216879123);
    SquareTimes(16384, 255357509137347, 276602624281642239937218680557139826668747,
      48030225410063040187449148677536216879123, 92980693535766384044399582708089378007464);
    SquareTimes(16384, 510715018274695, 276602624281642239937218680557139826668747,
      92980693535766384044399582708089378007464, 110417380625061043306774422962641759192131);
    SquareTimes(16384, 1021430036549391, 276602624281642239937218680557139826668747,
      110417380625061043306774422962641759192131, 49626136891949388661102426041398437267791);
    SquareTimes(16384, 2042860073098783, 276602624281642239937218680557139826668747,
      49626136891949388661102426041398437267791, 134726818616516615509624214603607309052038);
    SquareTimes(16384, 4085720146197567, 276602624281642239937218680557139826668747,
      134726818616516615509624214603607309052038, 56424745755685286084813795884957759016068);
    SquareTimes(16384, 8171440292395135, 276602624281642239937218680557139826668747,
      56424745755685286084813795884957759016068, 149457686695183284197034547590001369106938);
    Square(16384, 16342880584790271, 276602624281642239937218680557139826668747,
      149457686695183284197034547590001369106938, 254287140704528376812913291741167802216101);
    Square(16384, 32685761169580542, 276602624281642239937218680557139826668747,
      254287140704528376812913291741167802216101, 149449149989845418144215673369975202124354);
    Square(16384, 65371522339161084, 276602624281642239937218680557139826668747,
      149449149989845418144215673369975202124354, 269580295304946393845596091429171706434907);
    Square(16384, 130743044678322168, 276602624281642239937218680557139826668747,
      269580295304946393845596091429171706434907, 268452504038579681521689082691830230431543);
    SquareTimes(16384, 261486089356644336, 276602624281642239937218680557139826668747,
      268452504038579681521689082691830230431543, 19816286393514357904123663729534819347942);
    Square(16384, 522972178713288673, 276602624281642239937218680557139826668747,
      19816286393514357904123663729534819347942, 179181359966283914376780111898957016697485);
  }

  lemma Q1OrderPart4(b: int, n: nat, m: int)
    requires b == 16384 && n == 1096752150532930767775862 && m == 276602624281642239937218680557139826668747
    ensures IsPower(b, n, m, 121598829776792132285012046909904932816828)
  {
    hide IsPower;
    Q1OrderPart3(16384, 1045944357426577346, 276602624281642239937218680557139826668747);
    SquareTimes(16384, 1045944357426577346, 276602624281642239937218680557139826668747,
      179181359966283914376780111898957016697485, 82405980875845636384460025993958168296494);
    Square(16384, 2091888714853154693, 276602624281642239937218680557139826668747,
      82405980875845636384460025993958168296494, 96354664049196546040056698114747314617762);
    Square(16384, 4183777429706309386, 276602624281642239937218680557139826668747,
      96354664049196546040056698114747314617762, 175589492201661397657379091765942466311402);
    SquareTimes(16384, 8367554859412618772, 276602624281642239937218680557139826668747,
      175589492201661397657379091765942466311402, 240853629467637273365668771928498495415072);
    Square(16384, 16735109718825237545, 276602624281642239937218680557139826668747,
      240853629467637273365668771928498495415072, 129547934204749376356626051318856040420600);
    SquareTimes(16384, 33470219437650475090, 276602624281642239937218680557139826668747,
      129547934204749376356626051318856040420600, 35654663631828388041913330874142546639773);
    SquareTimes(16384, 66940438875300950181, 276602624281642239937218680557139826668747,
      35654663631828388041913330874142546639773, 191126249884239737978291288142466739245480);
    Square(16384, 133880877750601900363, 276602624281642239937218680557139826668747,
      191126249884239737978291288142466739245480, 191392219603236977269644445288911555931718);
    SquareTimes(16384, 267761755501203800726, 276602624281642239937218680557139826668747,
      191392219603236977269644445288911555931718, 42380965118357990463832855235843004873899);
    Square(16384, 535523511002407601453, 276602624281642239937218680557139826668747,
      42380965118357990463832855235843004873899, 263287973105875784327824598646843455951951);
    Square(16384, 1071047022004815202906, 276602624281642239937218680557139826668747,
      263287973105875784327824598646843455951951, 185288152265024854084230430261620523455908);
    Square(16384, 2142094044009630405812, 276602624281642239937218680557139826668747,
      185288152265024854084230430261620523455908, 196818908195318338316021603610771061578221);
    Square(16384, 4284188088019260811624, 276602624281642239937218680557139826668747,
      196818908195318338316021603610771061578221, 247143116849247193694768378511335250435326);
    SquareTimes(16384, 8568376176038521623248, 276602624281642239937218680557139826668747,
      247143116849247193694768378511335250435326, 63551124034928179021495604716464890133866);
    SquareTimes(16384, 17136752352077043246497, 276602624281642239937218680557139826668747,
      63551124034928179021495604716464890133866, 150913084281899006566345771087967255204703);
    SquareTimes(16384, 34273504704154086492995, 276602624281642239937218680557139826668747,
      150913084281899006566345771087967255204703, 121242749747000845919565212821951377782101);
    Square(16384, 68547009408308172985991, 276602624281642239937218680557139826668747,
      121242749747000845919565212821951377782101, 251823978872591522073176799091318272847301);
    SquareTimes(16384, 137094018816616345971982, 276602624281642239937218680557139826668747,
      251823978872591522073176799091318272847301, 143087957141878257663359918978866179224263);
    SquareTimes(16384, 274188037633232691943965, 276602624281642239937218680557139826668747,
      143087957141878257663359918978866179224263, 54822030830900929008565930168812093791118);
    Square(16384, 548376075266465383887931, 276602624281642239937218680557139826668747,
      54822030830900929008565930168812093791118, 121598829776792132285012046909904932816828);
  }

  lemma Q1OrderPart5(b: int, n: nat, m: int)
    requires b == 16384 && n == 1150027982997218412751343070317 && m == 276602624281642239937218680557139826668747
    ensures IsPower(b, n, m, 20125200542955931126432231282170537357370)
  {
    hide IsPower;
    Q1OrderPart4(16384, 1096752150532930767775862, 276602624281642239937218680557139826668747);
    SquareTimes(16384, 1096752150532930767775862, 276602624281642239937218680557139826668747,
      121598829776792132285012046909904932816828, 100899841336162144432115819078876183608671);
    SquareTimes(16384, 2193504301065861535551725, 276602624281642239937218680557139826668747,
      100899841336162144432115819078876183608671, 140575148997689222928575529700417903677066);
    Square(16384, 4387008602131723071103451, 276602624281642239937218680557139826668747,
      140575148997689222928575529700417903677066, 89796105950058974751654834600658262963696);
    Square(16384, 8774017204263446142206902, 276602624281642239937218680557139826668747,
      89796105950058974751654834600658262963696, 172950893879820542275660221907949222106151);
    Square(16384, 17548034408526892284413804, 276602624281642239937218680557139826668747,
      172950893879820542275660221907949222106151, 269934664790212557605756126785579009180953);
    Square(16384, 35096068817053784568827608, 276602624281642239937218680557139826668747,
      269934664790212557605756126785579009180953, 27516400033870082315037385751401701920636);
    SquareTimes(16384, 70192137634107569137655216, 276602624281642239937218680557139826668747,
      27516400033870082315037385751401701920636, 147580934048961688146105975031010125120951);
    Square(16384, 140384275268215138275310433, 276602624281642239937218680557139826668747,
      147580934048961688146105975031010125120951, 135185461497543084738727777066100397422788);
    SquareTimes(16384, 280768550536430276550620866, 276602624281642239937218680557139826668747,
      135185461497543084738727777066100397422788, 154845294799923361335229611288873115447661);
    SquareTimes(16384, 561537101072860553101241733, 276602624281642239937218680557139826668747,
      154845294799923361335229611288873115447661, 136411886994887432043930000864286822850871);
    Square(16384, 1123074202145721106202483467, 276602624281642239937218680557139826668747,
      136411886994887432043930000864286822850871, 72887351071505606681905177761951814470226);
    Square(16384, 2246148404291442212404966934, 276602624281642239937218680557139826668747,
      72887351071505606681905177761951814470226, 79322201675136737840184915326314112440240);
    Square(16384, 4492296808582884424809933868, 276602624281642239937218680557139826668747,
      79322201675136737840184915326314112440240, 116027735722919920965645284725924111402877);
    SquareTimes(16384, 8984593617165768849619867736, 276602624281642239937218680557139826668747,
      116027735722919920965645284725924111402877, 99606543952774213355950656885246057676686);
    SquareTimes(16384, 17969187234331537699239735473, 276602624281642239937218680557139826668747,
      99606543952774213355950656885246057676686, 115177099509201136070563823977188924140166);
    Square(16384, 35938374468663075398479470947, 276602624281642239937218680557139826668747,
      115177099509201136070563823977188924140166, 249400734658288781316964581698614256379973);
    SquareTimes(16384, 71876748937326150796958941894, 276602624281642239937218680557139826668747,
      249400734658288781316964581698614256379973, 113674378742802697359269423339082742446720);
    SquareTimes(16384, 143753497874652301593917883789, 276602624281642239937218680557139826668747,
      113674378742802697359269423339082742446720, 184199328216248245857240550437986209313);
    Square(16384, 287506995749304603187835767579, 276602624281642239937218680557139826668747,
      184199328216248245857240550437986209313, 2056317751850465548300754227263635908876);
    SquareTimes(16384, 575013991498609206375671535158, 276602624281642239937218680557139826668747,
      2056317751850465548300754227263635908876, 20125200542955931126432231282170537357370);
  }

  lemma Q1OrderPart6(b: int, n: nat, m: int)
    requires b == 16384 && n == 1205891742299291294369152311301704740 && m == 276602624281642239937218680557139826668747
    ensures IsPower(b, n, m, 84543780118376060740326574762808394577641)
  {
    hide IsPower;
    Q1OrderPart5(16384, 1150027982997218412751343070317, 276602624281642239937218680557139826668747);
    SquareTimes(16384, 1150027982997218412751343070317, 276602624281642239937218680557139826668747,
      20125200542955931126432231282170537357370, 182714252665829991348497582729739010591371);
    SquareTimes(16384, 2300055965994436825502686140635, 276602624281642239937218680557139826668747,
      182714252665829991348497582729739010591371, 225312678908765566550544193828568748240710);
    SquareTimes(16384, 4600111931988873651005372281271, 276602624281642239937218680557139826668747,
      225312678908765566550544193828568748240710, 155325633749284901903455979018602906065780);
    SquareTimes(16384, 9200223863977747302010744562543, 276602624281642239937218680557139826668747,
      155325633749284901903455979018602906065780, 183139025912900202994724530817866116283709);
    Square(16384, 18400447727955494604021489125087, 276602624281642239937218680557139826668747,
      183139025912900202994724530817866116283709, 10345298698818750078634354232884497442163);
    Square(16384, 36800895455910989208042978250174, 276602624281642239937218680557139826668747,
      10345298698818750078634354232884497442163, 121323298363596403230161203681922455518920);
    Square(16384, 73601790911821978416085956500348, 276602624281642239937218680557139826668747,
      121323298363596403230161203681922455518920, 101540144482142357056366835912195435349217);
    Square(16384, 147203581823643956832171913000696, 276602624281642239937218680557139826668747,
      101540144482142357056366835912195435349217, 159134166080482551941996171917773520225322);
    SquareTimes(16384, 294407163647287913664343826001392, 276602624281642239937218680557139826668747,
      159134166080482551941996171917773520225322, 249956797516486730027278998760746407531244);
    SquareTimes(16384, 588814327294575827328687652002785, 276602624281642239937218680557139826668747,
      249956797516486730027278998760746407531244, 60736295561698986065304732445552701020865);
    Square(16384, 1177628654589151654657375304005571, 276602624281642239937218680557139826668747,
      60736295561698986065304732445552701020865, 68984052175518736736614509766235324746185);
    Square(16384, 2355257309178303309314750608011142, 276602624281642239937218680557139826668747,
      68984052175518736736614509766235324746185, 89462823790658970618485735842040404800106);
    Square(16384, 4710514618356606618629501216022284, 276602624281642239937218680557139826668747,
      89462823790658970618485735842040404800106, 107548065274635666365612449819756387194650);
    Square(16384, 9421029236713213237259002432044568, 276602624281642239937218680557139826668747,
      107548065274635666365612449819756387194650, 273741103136643191388210911203503990027780);
    SquareTimes(16384, 18842058473426426474518004864089136, 276602624281642239937218680557139826668747,
      273741103136643191388210911203503990027780, 220872294203172099202676682532502691932512);
    Square(16384, 37684116946852852949036009728178273, 276602624281642239937218680557139826668747,
      220872294203172099202676682532502691932512, 251331661725013571234812207584584093248636);
    Square(16384, 75368233893705705898072019456356546, 276602624281642239937218680557139826668747,
      251331661725013571234812207584584093248636, 234519652416740181395989173376997536998859);
    SquareTimes(16384, 150736467787411411796144038912713092, 276602624281642239937218680557139826668747,
      234519652416740181395989173376997536998859, 247866017529519058846923317403828917100900);
    Square(16384, 301472935574822823592288077825426185, 276602624281642239937218680557139826668747,
      247866017529519058846923317403828917100900, 135541744060435178519267235927804223104644);
    Square(16384, 602945871149645647184576155650852370, 276602624281642239937218680557139826668747,
      135541744060435178519267235927804223104644, 84543780118376060740326574762808394577641);
  }

  lemma Q1Order(b: int, n: nat, m: int)
    requires b == 16384 && n == 19757330305831588566944191468367130476339
    requires m == 276602624281642239937218680557139826668747
    ensures IsPower(b, n, m, 1)
  {
    hide IsPower;
    Q1OrderPart6(16384, 1205891742299291294369152311301704740, 276602624281642239937218680557139826668747);
    SquareTimes(16384, 1205891742299291294369152311301704740, 276602624281642239937218680557139826668747,
      84543780118376060740326574762808394577641, 16006551209412809798239773766945075523481);
    SquareTimes(16384, 2411783484598582588738304622603409481, 276602624281642239937218680557139826668747,
      16006551209412809798239773766945075523481, 160304567724279928812005931947734984056485);
    SquareTimes(16384, 4823566969197165177476609245206818963, 276602624281642239937218680557139826668747,
      160304567724279928812005931947734984056485, 225459610864705393429056830009112282577955);
    SquareTimes(16384, 9647133938394330354953218490413637927, 276602624281642239937218680557139826668747,
      225459610864705393429056830009112282577955, 154158699493479600026099115525488465886337);
    SquareTimes(16384, 19294267876788660709906436980827275855, 276602624281642239937218680557139826668747,
      154158699493479600026099115525488465886337, 113727880365865305768101019949372386318525);
    SquareTimes(16384, 38588535753577321419812873961654551711, 276602624281642239937218680557139826668747,
      113727880365865305768101019949372386318525, 141169181970303267694176702739033264996321);
    Square(16384, 77177071507154642839625747923309103423, 276602624281642239937218680557139826668747,
      141169181970303267694176702739033264996321, 20852166459987841095271221206059416130338);
    Square(16384, 154354143014309285679251495846618206846, 276602624281642239937218680557139826668747,
      20852166459987841095271221206059416130338, 147620844463418569624496921072207144910624);
    SquareTimes(16384, 308708286028618571358502991693236413692, 276602624281642239937218680557139826668747,
      147620844463418569624496921072207144910624, 207890879824994546910826334603025434758830);
    SquareTimes(16384, 617416572057237142717005983386472827385, 276602624281642239937218680557139826668747,
      207890879824994546910826334603025434758830, 207595485312986244222344616224181746620700);
    Square(16384, 1234833144114474285434011966772945654771, 276602624281642239937218680557139826668747,
      207595485312986244222344616224181746620700, 266923732856059701510153452999870965170014);
    Square(16384, 2469666288228948570868023933545891309542, 276602624281642239937218680557139826668747,
      266923732856059701510153452999870965170014, 218631566832821983138097142210029686245642);
    SquareTimes(16384, 4939332576457897141736047867091782619084, 276602624281642239937218680557139826668747,
      218631566832821983138097142210029686245642, 213934842217832669951442573243412834689109);
    SquareTimes(16384, 9878665152915794283472095734183565238169, 276602624281642239937218680557139826668747,
      213934842217832669951442573243412834689109, 1);
  }

  lemma Q1Prime()
    ensures Prime(Q1)
  {
    hide IsPower, Prime;
    Q1Order(16384, 19757330305831588566944191468367130476339, 276602624281642239937218680557139826668747);
    Q2Prime();
    PrimeByOrder(276602624281642239937218680557139826668747, 19757330305831588566944191468367130476339, 16384,
      94074944912245044309966580483695483989395, 5572);
  }

  lemma LOrderPart1(b: int, n: nat, m: int)
    requires b == 2975531125133123119648879457563281269120703404158613135195788908093573672641 && n == 832370
    requires m == 7237005577332262213973186563042994240857116359379907606001950938285454250989
    ensures IsPower(b, n, m, 1549361267559003431076770652863421714450574831755220452476910377751802357029)
  {
    hide IsPower;
    ZeroPower(2975531125133123119648879457563281269120703404158613135195788908093573672641,
      7237005577332262213973186563042994240857116359379907606001950938285454250989);
    SquareTimes(2975531125133123119648879457563281269120703404158613135195788908093573672641, 0,
      7237005577332262213973186563042994240857116359379907606001950938285454250989, 1,
      2975531125133123119648879457563281269120703404158613135195788908093573672641);
    SquareTimes(2975531125133123119648879457563281269120703404158613135195788908093573672641, 1,
      7237005577332262213973186563042994240857116359379907606001950938285454250989,
      2975531125133123119648879457563281269120703404158613135195788908093573672641,
      3665235763280526279908536420599828886736543928067072603103294819968044667087);
    Square(2975531125133123119648879457563281269120703404158613135195788908093573672641, 3,
      7237005577332262213973186563042994240857116359379907606001950938285454250989,
      3665235763280526279908536420599828886736543928067072603103294819968044667087,
      2842607373568233679126802808133879853739251170804687763745690814605824089372);
    Square(2975531125133123119648879457563281269120703404158613135195788908093573672641, 6,
      7237005577332262213973186563042994240857116359379907606001950938285454250989,
      2842607373568233679126802808133879853739251170804687763745690814605824089372,
      5146656198582732691297687165262510079968062831454669297356825201005868055503);
    SquareTimes(2975531125133123119648879457563281269120703404158613135195788908093573672641, 12,
      7237005577332262213973186563042994240857116359379907606001950938285454250989,
      5146656198582732691297687165262510079968062831454669297356825201005868055503,
      5936157607676022067457478676780565476569134042210044479126850339426335072322);
    Square(2975531125133123119648879457563281269120703404158613135195788908093573672641, 25,
      7237005577332262213973186563042994240857116359379907606001950938285454250989,
      5936157607676022067457478676780565476569134042210044479126850339426335072322,
      7175938532651233903748682442707025085440801865718631403814725555505715236145);
    SquareTimes(2975531125133123119648879457563281269120703404158613135195788908093573672641, 50,
      7237005577332262213973186563042994240857116359379907606001950938285454250989,
      7175938532651233903748682442707025085440801865718631403814725555505715236145,
      2964120003904931808861274971784108810578952962345512456809578895262572152397);
    SquareTimes(2975531125133123119648879457563281269120703404158613135195788908093573672641, 101,
      7237005577332262213973186563042994240857116359379907606001950938285454250989,
      2964120003904931808861274971784108810578952962345512456809578895262572152397,
      6874789637663776313523746259733825275063889672641281416831346523591968762035);
    Square(2975531125133123119648879457563281269120703404158613135195788908093573672641, 203,
      7237005577332262213973186563042994240857116359379907606001950938285454250989,
      6874789637663776313523746259733825275063889672641281416831346523591968762035,
      6974337175062843460372899792875754088382950456993122439444980336729723370389);
    Square(2975531125133123119648879457563281269120703404158613135195788908093573672641, 406,
      7237005577332262213973186563042994240857116359379907606001950938285454250989,
      6974337175062843460372899792875754088382950456993122439444980336729723370389,
      6207530265682898525770647841602741158668051929211741291680926422922192217409);
    SquareTimes(2975531125133123119648879457563281269120703404158613135195788908093573672641, 812,
      7237005577332262213973186563042994240857116359379907606001950938285454250989,
      6207530265682898525770647841602741158668051929211741291680926422922192217409,
      5089192805081444504726152334872055858411421915105645889720167477643654000009);
    SquareTimes(2975531125133123119648879457563281269120703404158613135195788908093573672641, 1625,
      7237005577332262213973186563042994240857116359379907606001950938285454250989,
      5089192805081444504726152334872055858411421915105645889720167477643654000009,
      3729166653595140297381057994581282117922119383234765286236682086947030664036);
    Square(2975531125133123119648879457563281269120703404158613135195788908093573672641, 3251,
      7237005577332262213973186563042994240857116359379907606001950938285454250989,
      3729166653595140297381057994581282117922119383234765286236682086947030664036,
      7137485879826442710213371833326605936948003446197224505871178667154237758127);
    SquareTimes(2975531125133123119648879457563281269120703404158613135195788908093573672641, 6502,
      7237005577332262213973186563042994240857116359379907606001950938285454250989,
      7137485879826442710213371833326605936948003446197224505871178667154237758127,
      2373096510333686718966938841103364010878955140374695579704181567728478764382);
    SquareTimes(2975531125133123119648879457563281269120703404158613135195788908093573672641, 13005,
      7237005577332262213973186563042994240857116359379907606001950938285454250989,
      2373096510333686718966938841103364010878955140374695579704181567728478764382,
      6405772445709333074017480073639598936699222844194712905383296063556588401325);
    SquareTimes(2975531125133123119648879457563281269120703404158613135195788908093573672641, 26011,
      7237005577332262213973186563042994240857116359379907606001950938285454250989,
      6405772445709333074017480073639598936699222844194712905383296063556588401325,
      164317360067121570284146884234674282780934341476944297429580691382277450951);
    Square(2975531125133123119648879457563281269120703404158613135195788908093573672641, 52023,
      7237005577332262213973186563042994240857116359379907606001950938285454250989,
      164317360067121570284146884234674282780934341476944297429580691382277450951,
      2912146453556428322079037447932495181322413701611605686133751551442106528648);
    Square(2975531125133123119648879457563281269120703404158613135195788908093573672641, 104046,
      7237005577332262213973186563042994240857116359379907606001950938285454250989,
      2912146453556428322079037447932495181322413701611605686133751551442106528648,
      960028914461910659853818081051779040975436451011166430819809887532753398109);
    SquareTimes(2975531125133123119648879457563281269120703404158613135195788908093573672641, 208092,
      7237005577332262213973186563042994240857116359379907606001950938285454250989,
      960028914461910659853818081051779040975436451011166430819809887532753398109,
      2972356994885678752509606889581643171603070875080246994629418464611369601473);
    Square(2975531125133123119648879457563281269120703404158613135195788908093573672641, 416185,
      7237005577332262213973186563042994240857116359379907606001950938285454250989,
      2972356994885678752509606889581643171603070875080246994629418464611369601473,
      1549361267559003431076770652863421714450574831755220452476910377751802357029);
  }

  lemma LOrderPart2(b: int, n: nat, m: int)
    requires b == 2975531125133123119648879457563281269120703404158613135195788908093573672641 && n == 872803986309
    requires m == 7237005577332262213973186563042994240857116359379907606001950938285454250989
    ensures IsPower(b, n, m, 6134593861319037289789948958364387858537729574311061636944645575245153625187)
  {
    hide IsPower;
    LOrderPart1(2975531125133123119648879457563281269120703404158613135195788908093573672641, 832370,
      7237005577332262213973186563042994240857116359379907606001950938285454250989);
    SquareTimes(2975531125133123119648879457563281269120703404158613135195788908093573672641, 832370,
      7237005577332262213973186563042994240857116359379907606001950938285454250989,
      1549361267559003431076770652863421714450574831755220452476910377751802357029,
      4552874947872426685181280873178328187802856648027268743880368401400270769342);
    Square(2975531125133123119648879457563281269120703404158613135195788908093573672641, 1664741,
      7237005577332262213973186563042994240857116359379907606001950938285454250989,
      4552874947872426685181280873178328187802856648027268743880368401400270769342,
      31012265291365030753547563406996299953448142391039883343334817870986964752);
    SquareTimes(2975531125133123119648879457563281269120703404158613135195788908093573672641, 3329482,
      7237005577332262213973186563042994240857116359379907606001950938285454250989,
      31012265291365030753547563406996299953448142391039883343334817870986964752,
      2369169303297118495569055780024983823164495171844705344082185186136207591988);
    SquareTimes(2975531125133123119648879457563281269120703404158613135195788908093573672641, 6658965,
      7237005577332262213973186563042994240857116359379907606001950938285454250989,
      2369169303297118495569055780024983823164495171844705344082185186136207591988,
      3059766519068902245709035047862486866731795828404872399757436477996955790036);
    SquareTimes(2975531125133123119648879457563281269120703404158613135195788908093573672641, 13317931,
      7237005577332262213973186563042994240857116359379907606001950938285454250989,
      3059766519068902245709035047862486866731795828404872399757436477996955790036,
      6822442268978850854592382282468272686290476081204332545390266241015593418200);
    SquareTimes(2975531125133123119648879457563281269120703404158613135195788908093573672641, 26635863,
      7237005577332262213973186563042994240857116359379907606001950938285454250989,
      6822442268978850854592382282468272686290476081204332545390266241015593418200,
      2760896271589094641256962135464800424419427770653358600175313710813182187103);
    SquareTimes(2975531125133123119648879457563281269120703404158613135195788908093573672641, 53271727,
      7237005577332262213973186563042994240857116359379907606001950938285454250989,
      2760896271589094641256962135464800424419427770653358600175313710813182187103,
      2338951956602103976058197758407137832003815435933005695873093672217098025329);
    Square(2975531125133123119648879457563281269120703404158613135195788908093573672641, 106543455,
      7237005577332262213973186563042994240857116359379907606001950938285454250989,
      2338951956602103976058197758407137832003815435933005695873093672217098025329,
      3250659748771951401884218851066237121211939833634847786563837599231965709897);
    SquareTimes(2975531125133123119648879457563281269120703404158613135195788908093573672641, 213086910,
      7237005577332262213973186563042994240857116359379907606001950938285454250989,
      3250659748771951401884218851066237121211939833634847786563837599231965709897,
      975258862138234497501502464167199400705606393990389302178648032907625157374);
    Square(2975531125133123119648879457563281269120703404158613135195788908093573672641, 426173821,
      7237005577332262213973186563042994240857116359379907606001950938285454250989,
      975258862138234497501502464167199400705606393990389302178648032907625157374,
      7232046672972164392716347785116782272069947763230477244222753543362230759150);
    SquareTimes(2975531125133123119648879457563281269120703404158613135195788908093573672641, 852347642,
      7237005577332262213973186563042994240857116359379907606001950938285454250989,
      7232046672972164392716347785116782272069947763230477244222753543362230759150,
      1339835528936441179073448645206275064080348347380556628301920123893429482590);
    SquareTimes(2975531125133123119648879457563281269120703404158613135195788908093573672641, 1704695285,
      7237005577332262213973186563042994240857116359379907606001950938285454250989,
      1339835528936441179073448645206275064080348347380556628301920123893429482590,
      3845953451858417029761895654704770115424302248007699415941171832213454746895);
    SquareTimes(2975531125133123119648879457563281269120703404158613135195788908093573672641, 3409390571,
      7237005577332262213973186563042994240857116359379907606001950938285454250989,
      3845953451858417029761895654704770115424302248007699415941171832213454746895,
      4778554895186897331026025208657200810864931419910679177085683967649218589765);
    Square(2975531125133123119648879457563281269120703404158613135195788908093573672641, 6818781143,
      7237005577332262213973186563042994240857116359379907606001950938285454250989,
      4778554895186897331026025208657200810864931419910679177085683967649218589765,
      5470573762597613452518301541285217260694163667102453414694111630309308137397);
    Square(2975531125133123119648879457563281269120703404158613135195788908093573672641, 13637562286,
      7237005577332262213973186563042994240857116359379907606001950938285454250989,
      5470573762597613452518301541285217260694163667102453414694111630309308137397,
      3838734098177115757655769727859307005388404832769746463616212370121576485861);
    Square(2975531125133123119648879457563281269120703404158613135195788908093573672641, 27275124572,
      7237005577332262213973186563042994240857116359379907606001950938285454250989,
      3838734098177115757655769727859307005388404832769746463616212370121576485861,
      1685680740718780297972317168860174858816747602262035464124602273948929684745);
    Square(2975531125133123119648879457563281269120703404158613135195788908093573672641, 54550249144,
      7237005577332262213973186563042994240857116359379907606001950938285454250989,
      1685680740718780297972317168860174858816747602262035464124602273948929684745,
      1416954027420938847720355136703742910617445099837963540998531035653648693586);
    SquareTimes(2975531125133123119648879457563281269120703404158613135195788908093573672641, 109100498288,
      7237005577332262213973186563042994240857116359379907606001950938285454250989,
      1416954027420938847720355136703742910617445099837963540998531035653648693586,
      2277625253387548773050836222144282001429162223638617787819795107505666852900);
    Square(2975531125133123119648879457563281269120703404158613135195788908093573672641, 218200996577,
      7237005577332262213973186563042994240857116359379907606001950938285454250989,
      2277625253387548773050836222144282001429162223638617787819795107505666852900,
      7118910014781095259080807891013972927600984151043010906894207295608572766179);
    SquareTimes(2975531125133123119648879457563281269120703404158613135195788908093573672641, 436401993154,
      7237005577332262213973186563042994240857116359379907606001950938285454250989,
      7118910014781095259080807891013972927600984151043010906894207295608572766179,
      6134593861319037289789948958364387858537729574311061636944645575245153625187);
  }

  lemma LOrderPart3(b: int, n: nat, m: int)
    requires b == 2975531125133123119648879457563281269120703404158613135195788908093573672641
    requires n == 915201312748255178
    requires m == 7237005577332262213973186563042994240857116359379907606001950938285454250989
    ensures IsPower(b, n, m, 188523677428841010405736405542353609829253288886862151447453405257337346146)
  {
    hide IsPower;
    LOrderPart2(2975531125133123119648879457563281269120703404158613135195788908093573672641, 872803986309,
      7237005577332262213973186563042994240857116359379907606001950938285454250989);
    Square(2975531125133123119648879457563281269120703404158613135195788908093573672641, 872803986309,
      7237005577332262213973186563042994240857116359379907606001950938285454250989,
      6134593861319037289789948958364387858537729574311061636944645575245153625187,
      5328262228400811278332535113572013722887469185981759636883888747666703065620);
    SquareTimes(2975531125133123119648879457563281269120703404158613135195788908093573672641, 1745607972618,
      7237005577332262213973186563042994240857116359379907606001950938285454250989,
      5328262228400811278332535113572013722887469185981759636883888747666703065620,
      5068113050575366065211048013365614901180335073665548033998180864435499602813);
    Square(2975531125133123119648879457563281269120703404158613135195788908093573672641, 3491215945237,
      7237005577332262213973186563042994240857116359379907606001950938285454250989,
      5068113050575366065211048013365614901180335073665548033998180864435499602813,
      1718495378464035805711659598336842377855300719744370394524983500545235327609);
    Square(2975531125133123119648879457563281269120703404158613135195788908093573672641, 6982431890474,
      7237005577332262213973186563042994240857116359379907606001950938285454250989,
      1718495378464035805711659598336842377855300719744370394524983500545235327609,
      6887582957483371436589356537548330497280761093428025289515474281310098191368);
    SquareTimes(2975531125133123119648879457563281269120703404158613135195788908093573672641, 13964863780948,
      7237005577332262213973186563042994240857116359379907606001950938285454250989,
      6887582957483371436589356537548330497280761093428025289515474281310098191368,
      5526015572155153395405326310132533924072550694568389843727123037820615233716);
    Square(2975531125133123119648879457563281269120703404158613135195788908093573672641, 27929727561897,
      7237005577332262213973186563042994240857116359379907606001950938285454250989,
      5526015572155153395405326310132533924072550694568389843727123037820615233716,
      313295167023036127677692683007909182448531532354115392544593201192198975498);
    SquareTimes(2975531125133123119648879457563281269120703404158613135195788908093573672641, 55859455123794,
      7237005577332262213973186563042994240857116359379907606001950938285454250989,
      313295167023036127677692683007909182448531532354115392544593201192198975498,
      4031628884245940659201867650444596229884128510765748985336198123431516081234);
    SquareTimes(2975531125133123119648879457563281269120703404158613135195788908093573672641, 111718910247589,
      7237005577332262213973186563042994240857116359379907606001950938285454250989,
      4031628884245940659201867650444596229884128510765748985336198123431516081234,
      6756559511649337746891729872501579109041184293156758715679779586439926903175);
    Square(2975531125133123119648879457563281269120703404158613135195788908093573672641, 223437820495179,
      7237005577332262213973186563042994240857116359379907606001950938285454250989,
      6756559511649337746891729872501579109041184293156758715679779586439926903175,
      2652227010534551215791592018804486517511722043694244659468408616470126681483);
    SquareTimes(2975531125133123119648879457563281269120703404158613135195788908093573672641, 446875640990358,
      7237005577332262213973186563042994240857116359379907606001950938285454250989,
      2652227010534551215791592018804486517511722043694244659468408616470126681483,
      462477126691646604852233844056087044348329091629879729366238054346830152651);
    SquareTimes(2975531125133123119648879457563281269120703404158613135195788908093573672641, 893751281980717,
      7237005577332262213973186563042994240857116359379907606001950938285454250989,
      462477126691646604852233844056087044348329091629879729366238054346830152651,
      1092123562769034915971588250726813403492448076436788258539094413809413206452);
    SquareTimes(2975531125133123119648879457563281269120703404158613135195788908093573672641, 1787502563961435,
      7237005577332262213973186563042994240857116359379907606001950938285454250989,
      1092123562769034915971588250726813403492448076436788258539094413809413206452,
      5421557474433518068047149429459997187784186647317253377785834519056766138523);
    SquareTimes(2975531125133123119648879457563281269120703404158613135195788908093573672641, 3575005127922871,
      7237005577332262213973186563042994240857116359379907606001950938285454250989,
      5421557474433518068047149429459997187784186647317253377785834519056766138523,
      3254905801580584261843399729954591176081151368565146701884286132368072336150);
    SquareTimes(2975531125133123119648879457563281269120703404158613135195788908093573672641, 7150010255845743,
      7237005577332262213973186563042994240857116359379907606001950938285454250989,
      3254905801580584261843399729954591176081151368565146701884286132368072336150,
      1296534272086845583837664037449927365436482738856045993470301139685861520644);
    Square(2975531125133123119648879457563281269120703404158613135195788908093573672641, 14300020511691487,
      7237005577332262213973186563042994240857116359379907606001950938285454250989,
      1296534272086845583837664037449927365436482738856045993470301139685861520644,
      4891654009435638651280300093915597791732668469769240570550354040973374778531);
    Square(2975531125133123119648879457563281269120703404158613135195788908093573672641, 28600041023382974,
      7237005577332262213973186563042994240857116359379907606001950938285454250989,
      4891654009435638651280300093915597791732668469769240570550354040973374778531,
      4306494374039268621827171544403568333158836266692698756504493953554035962412);
    SquareTimes(2975531125133123119648879457563281269120703404158613135195788908093573672641, 57200082046765948,
      7237005577332262213973186563042994240857116359379907606001950938285454250989,
      4306494374039268621827171544403568333158836266692698756504493953554035962412,
      2554917143540569773049038972209925517271115854055866791970506021220672124889);
    Square(2975531125133123119648879457563281269120703404158613135195788908093573672641, 114400164093531897,
      7237005577332262213973186563042994240857116359379907606001950938285454250989,
      2554917143540569773049038972209925517271115854055866791970506021220672124889,
      1328035523556881608489263363901372640252801584734533986571099052849634959140);
    SquareTimes(2975531125133123119648879457563281269120703404158613135195788908093573672641, 228800328187063794,
      7237005577332262213973186563042994240857116359379907606001950938285454250989,
      1328035523556881608489263363901372640252801584734533986571099052849634959140,
      7134371117446103865216959443592411193561527779451123840030946110144305821304);
    Square(2975531125133123119648879457563281269120703404158613135195788908093573672641, 457600656374127589,
      7237005577332262213973186563042994240857116359379907606001950938285454250989,
      7134371117446103865216959443592411193561527779451123840030946110144305821304,
      188523677428841010405736405542353609829253288886862151447453405257337346146);
  }

  lemma LOrderPart4(b: int, n: nat, m: int)
    requires b == 2975531125133123119648879457563281269120703404158613135195788908093573672641
    requires n == 959658131716314421803879
    requires m == 7237005577332262213973186563042994240857116359379907606001950938285454250989
    ensures IsPower(b, n, m, 6339953942788253099119621015750423195978271047850722805158757607715429597019)
  {
    hide IsPower;
    LOrderPart3(2975531125133123119648879457563281269120703404158613135195788908093573672641, 915201312748255178,
      7237005577332262213973186563042994240857116359379907606001950938285454250989);
    Square(2975531125133123119648879457563281269120703404158613135195788908093573672641, 915201312748255178,
      7237005577332262213973186563042994240857116359379907606001950938285454250989,
      188523677428841010405736405542353609829253288886862151447453405257337346146,
      5950937928174422822158710504629254416731799558887744948453710811854862771087);
    SquareTimes(2975531125133123119648879457563281269120703404158613135195788908093573672641, 1830402625496510356,
      7237005577332262213973186563042994240857116359379907606001950938285454250989,
      5950937928174422822158710504629254416731799558887744948453710811854862771087,
      411825343483996257611815539872320170345517991326091655106628756551513621766);
    Square(2975531125133123119648879457563281269120703404158613135195788908093573672641, 3660805250993020713,
      7237005577332262213973186563042994240857116359379907606001950938285454250989,
      411825343483996257611815539872320170345517991326091655106628756551513621766,
      7117563868734802047275881506376221479291359384108005754928868625801065620275);
    Square(2975531125133123119648879457563281269120703404158613135195788908093573672641, 7321610501986041426,
      7237005577332262213973186563042994240857116359379907606001950938285454250989,
      7117563868734802047275881506376221479291359384108005754928868625801065620275,
      3989969181280255186335235942736903610090399073381571776800577477124224777513);
    Square(2975531125133123119648879457563281269120703404158613135195788908093573672641, 14643221003972082852,
      7237005577332262213973186563042994240857116359379907606001950938285454250989,
      3989969181280255186335235942736903610090399073381571776800577477124224777513,
      3490372181868742354696434686493642367696352843075611705518930043419877366590);
    Square(2975531125133123119648879457563281269120703404158613135195788908093573672641, 29286442007944165704,
      7237005577332262213973186563042994240857116359379907606001950938285454250989,
      3490372181868742354696434686493642367696352843075611705518930043419877366590,
      5783831035136462902736562723384550844154587593134393782326140327927951970163);
    SquareTimes(2975531125133123119648879457563281269120703404158613135195788908093573672641, 58572884015888331408,
      7237005577332262213973186563042994240857116359379907606001950938285454250989,
      5783831035136462902736562723384550844154587593134393782326140327927951970163,
      5858869158663132591161194241788209898664931923963506911211883414311703712731);
    SquareTimes(2975531125133123119648879457563281269120703404158613135195788908093573672641, 117145768031776662817,
      7237005577332262213973186563042994240857116359379907606001950938285454250989,
      5858869158663132591161194241788209898664931923963506911211883414311703712731,
      907442934358854047637305936318112521146504401428409400736707451646556972182);
    SquareTimes(2975531125133123119648879457563281269120703404158613135195788908093573672641, 234291536063553325635,
      7237005577332262213973186563042994240857116359379907606001950938285454250989,
      907442934358854047637305936318112521146504401428409400736707451646556972182,
      34280521956364557954289963722217602328213955130427748008874423572606765166);
    Square(2975531125133123119648879457563281269120703404158613135195788908093573672641, 468583072127106651271,
      7237005577332262213973186563042994240857116359379907606001950938285454250989,
      34280521956364557954289963722217602328213955130427748008874423572606765166,
      1655621807837006465932773618913923224169161433653386660467148861137362138909);
    SquareTimes(2975531125133123119648879457563281269120703404158613135195788908093573672641, 937166144254213302542,
      7237005577332262213973186563042994240857116359379907606001950938285454250989,
      1655621807837006465932773618913923224169161433653386660467148861137362138909,
      3497669712650507613284074748382949791879406402900035761104143144401838626913);
    SquareTimes(2975531125133123119648879457563281269120703404158613135195788908093573672641, 1874332288508426605085,
      7237005577332262213973186563042994240857116359379907606001950938285454250989,
      3497669712650507613284074748382949791879406402900035761104143144401838626913,
      753551993235866361145761596977529406829346963604980905870871845897124306118);
    Square(2975531125133123119648879457563281269120703404158613135195788908093573672641, 3748664577016853210171,
      7237005577332262213973186563042994240857116359379907606001950938285454250989,
      753551993235866361145761596977529406829346963604980905870871845897124306118,
      3187299450540158386272385638157220676011797409842971349402041092809058969494);
    SquareTimes(2975531125133123119648879457563281269120703404158613135195788908093573672641, 7497329154033706420342,
      7237005577332262213973186563042994240857116359379907606001950938285454250989,
      3187299450540158386272385638157220676011797409842971349402041092809058969494,
      4814489234450794997775462157635832024044394994990440081038285557998157235378);
    SquareTimes(2975531125133123119648879457563281269120703404158613135195788908093573672641, 14994658308067412840685,
      7237005577332262213973186563042994240857116359379907606001950938285454250989,
      4814489234450794997775462157635832024044394994990440081038285557998157235378,
      4339137218290786660696936436234341818784697761099804949106833620563200005055);
    Square(2975531125133123119648879457563281269120703404158613135195788908093573672641, 29989316616134825681371,
      7237005577332262213973186563042994240857116359379907606001950938285454250989,
      4339137218290786660696936436234341818784697761099804949106833620563200005055,
      5897749416546717959019417165617255298286931755725995111976212482817339864010);
    Square(2975531125133123119648879457563281269120703404158613135195788908093573672641, 59978633232269651362742,
      7237005577332262213973186563042994240857116359379907606001950938285454250989,
      5897749416546717959019417165617255298286931755725995111976212482817339864010,
      3029620220494042437595480225515917770505784807488588185628780230631389103208);
    SquareTimes(2975531125133123119648879457563281269120703404158613135195788908093573672641, 119957266464539302725484,
      7237005577332262213973186563042994240857116359379907606001950938285454250989,
      3029620220494042437595480225515917770505784807488588185628780230631389103208,
      145576197706388446385893457198334689586900576946925209569102000123920416682);
    SquareTimes(2975531125133123119648879457563281269120703404158613135195788908093573672641, 239914532929078605450969,
      7237005577332262213973186563042994240857116359379907606001950938285454250989,
      145576197706388446385893457198334689586900576946925209569102000123920416682,
      776249330576967542000958982451847261555266920670581560480256850267135775204);
    SquareTimes(2975531125133123119648879457563281269120703404158613135195788908093573672641, 479829065858157210901939,
      7237005577332262213973186563042994240857116359379907606001950938285454250989,
      776249330576967542000958982451847261555266920670581560480256850267135775204,
      6339953942788253099119621015750423195978271047850722805158757607715429597019);
  }

  lemma LOrderPart5(b: int, n: nat, m: int)
    requires b == 2975531125133123119648879457563281269120703404158613135195788908093573672641
    requires n == 1006274485122566111157425186528
    requires m == 7237005577332262213973186563042994240857116359379907606001950938285454250989
    ensures IsPower(b, n, m, 67210548745676515025393336008340302021520231139563852896400658780372942653)
  {
    hide IsPower;
    LOrderPart4(2975531125133123119648879457563281269120703404158613135195788908093573672641, 959658131716314421803879,
      7237005577332262213973186563042994240857116359379907606001950938285454250989);
    SquareTimes(2975531125133123119648879457563281269120703404158613135195788908093573672641, 959658131716314421803879,
      7237005577332262213973186563042994240857116359379907606001950938285454250989,
      6339953942788253099119621015750423195978271047850722805158757607715429597019,
      5926022464772768746530451445181677779226976856919225296387440819281864285959);
    SquareTimes(2975531125133123119648879457563281269120703404158613135195788908093573672641, 1919316263432628843607759,
      7237005577332262213973186563042994240857116359379907606001950938285454250989,
      5926022464772768746530451445181677779226976856919225296387440819281864285959,
      1634748694155654526929866670586332761474284327209465085384214812600691698804);
    SquareTimes(2975531125133123119648879457563281269120703404158613135195788908093573672641, 3838632526865257687215519,
      7237005577332262213973186563042994240857116359379907606001950938285454250989,
      1634748694155654526929866670586332761474284327209465085384214812600691698804,
      1284026807455423192505295227703756590935588600435245165864999389554859882210);
    Square(2975531125133123119648879457563281269120703404158613135195788908093573672641, 7677265053730515374431039,
      7237005577332262213973186563042994240857116359379907606001950938285454250989,
      1284026807455423192505295227703756590935588600435245165864999389554859882210,
      4922958007741334514757819739850152635450286630572702416909079362587933465427);
    SquareTimes(2975531125133123119648879457563281269120703404158613135195788908093573672641,
      15354530107461030748862078, 7237005577332262213973186563042994240857116359379907606001950938285454250989,
      4922958007741334514757819739850152635450286630572702416909079362587933465427,
      2841796994325649066628958737266243689728717573594986359959079950024344783635);
    Square(2975531125133123119648879457563281269120703404158613135195788908093573672641, 30709060214922061497724157,
      7237005577332262213973186563042994240857116359379907606001950938285454250989,
      2841796994325649066628958737266243689728717573594986359959079950024344783635,
      6011524715131614611361876334011909288835080468181780963744648963913892439419);
    SquareTimes(2975531125133123119648879457563281269120703404158613135195788908093573672641,
      61418120429844122995448314, 7237005577332262213973186563042994240857116359379907606001950938285454250989,
      6011524715131614611361876334011909288835080468181780963744648963913892439419,
      564213561823226683705834385496685200092098259774372862150619757570851640094);
    Square(2975531125133123119648879457563281269120703404158613135195788908093573672641, 122836240859688245990896629,
      7237005577332262213973186563042994240857116359379907606001950938285454250989,
      564213561823226683705834385496685200092098259774372862150619757570851640094,
      2191644937432920979774799744878032042950352474757909358905199947905401017033);
    Square(2975531125133123119648879457563281269120703404158613135195788908093573672641, 245672481719376491981793258,
      7237005577332262213973186563042994240857116359379907606001950938285454250989,
      2191644937432920979774799744878032042950352474757909358905199947905401017033,
      112756254977436283336307637432760190619997649681595324845101718754406900906);
    SquareTimes(2975531125133123119648879457563281269120703404158613135195788908093573672641,
      491344963438752983963586516, 7237005577332262213973186563042994240857116359379907606001950938285454250989,
      112756254977436283336307637432760190619997649681595324845101718754406900906,
      400934171919470011904101983247044467996775968726298184916411961360045511893);
    SquareTimes(2975531125133123119648879457563281269120703404158613135195788908093573672641,
      982689926877505967927173033, 7237005577332262213973186563042994240857116359379907606001950938285454250989,
      400934171919470011904101983247044467996775968726298184916411961360045511893,
      5152522076661186630784708529908289821202155929483373122171021069965002548643);
    Square(2975531125133123119648879457563281269120703404158613135195788908093573672641, 1965379853755011935854346067,
      7237005577332262213973186563042994240857116359379907606001950938285454250989,
      5152522076661186630784708529908289821202155929483373122171021069965002548643,
      4531195451704457469207016925014614825100777328164223857500024836172827618238);
    SquareTimes(2975531125133123119648879457563281269120703404158613135195788908093573672641,
      3930759707510023871708692134, 7237005577332262213973186563042994240857116359379907606001950938285454250989,
      4531195451704457469207016925014614825100777328164223857500024836172827618238,
      5533442335595301268616552986103002249730851036379953049301492321863584987914);
    SquareTimes(2975531125133123119648879457563281269120703404158613135195788908093573672641,
      7861519415020047743417384269, 7237005577332262213973186563042994240857116359379907606001950938285454250989,
      5533442335595301268616552986103002249730851036379953049301492321863584987914,
      6902489249525100973640825952337627475852702965359600519553582588475731061499);
    SquareTimes(2975531125133123119648879457563281269120703404158613135195788908093573672641,
      15723038830040095486834768539, 7237005577332262213973186563042994240857116359379907606001950938285454250989,
      6902489249525100973640825952337627475852702965359600519553582588475731061499,
      3828503647564192572848597344725766666563865501677396097174385626016505419505);
    Square(2975531125133123119648879457563281269120703404158613135195788908093573672641, 31446077660080190973669537079,
      7237005577332262213973186563042994240857116359379907606001950938285454250989,
      3828503647564192572848597344725766666563865501677396097174385626016505419505,
      1243211742153262088158510029980596133359341843445431124147336639324092584751);
    Square(2975531125133123119648879457563281269120703404158613135195788908093573672641, 62892155320160381947339074158,
      7237005577332262213973186563042994240857116359379907606001950938285454250989,
      1243211742153262088158510029980596133359341843445431124147336639324092584751,
      1599615131057285828866401146134626107165134744942877434958374434407199394072);
    Square(2975531125133123119648879457563281269120703404158613135195788908093573672641, 125784310640320763894678148316,
      7237005577332262213973186563042994240857116359379907606001950938285454250989,
      1599615131057285828866401146134626107165134744942877434958374434407199394072,
      2949325410373890190800257305559786875344888621327205062891411237085095917467);
    Square(2975531125133123119648879457563281269120703404158613135195788908093573672641, 251568621280641527789356296632,
      7237005577332262213973186563042994240857116359379907606001950938285454250989,
      2949325410373890190800257305559786875344888621327205062891411237085095917467,
      4901494658709632944356793330894408093320096553969786363990140452770157463146);
    Square(2975531125133123119648879457563281269120703404158613135195788908093573672641, 503137242561283055578712593264,
      7237005577332262213973186563042994240857116359379907606001950938285454250989,
      4901494658709632944356793330894408093320096553969786363990140452770157463146,
      67210548745676515025393336008340302021520231139563852896400658780372942653);
  }

  lemma LOrderPart6(b: int, n: nat, m: int)
    requires b == 2975531125133123119648879457563281269120703404158613135195788908093573672641
    requires n == 1055155274511879882573008272388991648
    requires m == 7237005577332262213973186563042994240857116359379907606001950938285454250989
    ensures IsPower(b, n, m, 3112878822973457355498141442896700898021756196555894873233038345807589726018)
  {
    hide IsPower;
    LOrderPart5(2975531125133123119648879457563281269120703404158613135195788908093573672641,
      1006274485122566111157425186528, 7237005577332262213973186563042994240857116359379907606001950938285454250989);
    Square(2975531125133123119648879457563281269120703404158613135195788908093573672641,
      1006274485122566111157425186528, 7237005577332262213973186563042994240857116359379907606001950938285454250989,
      67210548745676515025393336008340302021520231139563852896400658780372942653,
      4845517747046130115893425722389956509915260715421382383601860581212619372805);
    Square(2975531125133123119648879457563281269120703404158613135195788908093573672641,
      2012548970245132222314850373056, 7237005577332262213973186563042994240857116359379907606001950938285454250989,
      4845517747046130115893425722389956509915260715421382383601860581212619372805,
      3041283684093752129064944244956083837717697560019017553972313346412005839204);
    SquareTimes(2975531125133123119648879457563281269120703404158613135195788908093573672641,
      4025097940490264444629700746112, 7237005577332262213973186563042994240857116359379907606001950938285454250989,
      3041283684093752129064944244956083837717697560019017553972313346412005839204,
      2836034540537431034138432208359246862746003057115975151340014098249207601945);
    SquareTimes(2975531125133123119648879457563281269120703404158613135195788908093573672641,
      8050195880980528889259401492225, 7237005577332262213973186563042994240857116359379907606001950938285454250989,
      2836034540537431034138432208359246862746003057115975151340014098249207601945,
      3187140821721894353618108366811835673416535178079388375617925961447358219684);
    Square(2975531125133123119648879457563281269120703404158613135195788908093573672641,
      16100391761961057778518802984451, 7237005577332262213973186563042994240857116359379907606001950938285454250989,
      3187140821721894353618108366811835673416535178079388375617925961447358219684,
      6577519826477952044340455416298967066679499882711771073576371101812459485571);
    Square(2975531125133123119648879457563281269120703404158613135195788908093573672641,
      32200783523922115557037605968902, 7237005577332262213973186563042994240857116359379907606001950938285454250989,
      6577519826477952044340455416298967066679499882711771073576371101812459485571,
      2401245403296034540885638008628402679457861095487132852146354580796108352545);
    SquareTimes(2975531125133123119648879457563281269120703404158613135195788908093573672641,
      64401567047844231114075211937804, 7237005577332262213973186563042994240857116359379907606001950938285454250989,
      2401245403296034540885638008628402679457861095487132852146354580796108352545,
      6154327589896182874853646137040800447085038771489091226940757116181492805501);
    Square(2975531125133123119648879457563281269120703404158613135195788908093573672641,
      128803134095688462228150423875609, 7237005577332262213973186563042994240857116359379907606001950938285454250989,
      6154327589896182874853646137040800447085038771489091226940757116181492805501,
      1215070201787233036237322524270237438455081366144903010605008938756489870586);
    SquareTimes(2975531125133123119648879457563281269120703404158613135195788908093573672641,
      257606268191376924456300847751218, 7237005577332262213973186563042994240857116359379907606001950938285454250989,
      1215070201787233036237322524270237438455081366144903010605008938756489870586,
      4228476172108173335766456675138617352296300135478430854887532983529551495557);
    Square(2975531125133123119648879457563281269120703404158613135195788908093573672641,
      515212536382753848912601695502437, 7237005577332262213973186563042994240857116359379907606001950938285454250989,
      4228476172108173335766456675138617352296300135478430854887532983529551495557,
      1553866316766494876938242830088053282898575006076915692719743810430571984465);
    SquareTimes(2975531125133123119648879457563281269120703404158613135195788908093573672641,
      1030425072765507697825203391004874, 7237005577332262213973186563042994240857116359379907606001950938285454250989,
      1553866316766494876938242830088053282898575006076915692719743810430571984465,
      1964504030525941301007772817929312504219048239494217663306458241798312497401);
    Square(2975531125133123119648879457563281269120703404158613135195788908093573672641,
      2060850145531015395650406782009749, 7237005577332262213973186563042994240857116359379907606001950938285454250989,
      1964504030525941301007772817929312504219048239494217663306458241798312497401,
      1934864863597291078908523755814458968039295358893641397009201923189237688007);
    SquareTimes(2975531125133123119648879457563281269120703404158613135195788908093573672641,
      4121700291062030791300813564019498, 7237005577332262213973186563042994240857116359379907606001950938285454250989,
      1934864863597291078908523755814458968039295358893641397009201923189237688007,
      5403983770020637995369910622100528755303927814972445134569818020607344016665);
    Square(2975531125133123119648879457563281269120703404158613135195788908093573672641,
      8243400582124061582601627128038997, 7237005577332262213973186563042994240857116359379907606001950938285454250989,
      5403983770020637995369910622100528755303927814972445134569818020607344016665,
      6131467129197495414970832159506060552218038931497891780818705387348542296172);
    SquareTimes(2975531125133123119648879457563281269120703404158613135195788908093573672641,
      16486801164248123165203254256077994, 7237005577332262213973186563042994240857116359379907606001950938285454250989,
      6131467129197495414970832159506060552218038931497891780818705387348542296172,
      2882225482160885780316560010687272457570431065029727441994334545566657781704);
    Square(2975531125133123119648879457563281269120703404158613135195788908093573672641,
      32973602328496246330406508512155989, 7237005577332262213973186563042994240857116359379907606001950938285454250989,
      2882225482160885780316560010687272457570431065029727441994334545566657781704,
      82691383222472070697152000675180400723803281129756475743704768749880740703);
    Square(2975531125133123119648879457563281269120703404158613135195788908093573672641,
      65947204656992492660813017024311978, 7237005577332262213973186563042994240857116359379907606001950938285454250989,
      82691383222472070697152000675180400723803281129756475743704768749880740703,
      2698542322039748251634462633301378874339900111910406561664484890041300505165);
    Square(2975531125133123119648879457563281269120703404158613135195788908093573672641,
      131894409313984985321626034048623956,
      7237005577332262213973186563042994240857116359379907606001950938285454250989,
      2698542322039748251634462633301378874339900111910406561664484890041300505165,
      3809468180146359459910186183693433351054705470360220535066658019739849137890);
    Square(2975531125133123119648879457563281269120703404158613135195788908093573672641,
      263788818627969970643252068097247912,
      7237005577332262213973186563042994240857116359379907606001950938285454250989,
      3809468180146359459910186183693433351054705470360220535066658019739849137890,
      6011674262432527228394304166788677030577379388199044748020940612886621917821);
    Square(2975531125133123119648879457563281269120703404158613135195788908093573672641,
      527577637255939941286504136194495824,
      7237005577332262213973186563042994240857116359379907606001950938285454250989,
      6011674262432527228394304166788677030577379388199044748020940612886621917821,
      3112878822973457355498141442896700898021756196555894873233038345807589726018);
  }

  lemma LOrder(b: int, n: nat, m: int)
    requires b == 2975531125133123119648879457563281269120703404158613135195788908093573672641
    requires n == 276602624281642239937218680557139826668747
    requires m == 7237005577332262213973186563042994240857116359379907606001950938285454250989
    ensures IsPower(b, n, m, 1)
  {
    hide IsPower;
    LOrderPart6(2975531125133123119648879457563281269120703404158613135195788908093573672641,
      1055155274511879882573008272388991648,
      7237005577332262213973186563042994240857116359379907606001950938285454250989);
    Square(2975531125133123119648879457563281269120703404158613135195788908093573672641,
      1055155274511879882573008272388991648,
      7237005577332262213973186563042994240857116359379907606001950938285454250989,
      3112878822973457355498141442896700898021756196555894873233038345807589726018,
      5108918096134486241589130197423148228487798467836644482408977036971758488445);
    SquareTimes(2975531125133123119648879457563281269120703404158613135195788908093573672641,
      2110310549023759765146016544777983296,
      7237005577332262213973186563042994240857116359379907606001950938285454250989,
      5108918096134486241589130197423148228487798467836644482408977036971758488445,
      4057725582371205017849475535164214452523009504820076776613830697808913246494);
    Square(2975531125133123119648879457563281269120703404158613135195788908093573672641,
      4220621098047519530292033089555966593,
      7237005577332262213973186563042994240857116359379907606001950938285454250989,
      4057725582371205017849475535164214452523009504820076776613830697808913246494,
      1839136655941055691988266215693423423507233504633057998078493423662401169211);
    SquareTimes(2975531125133123119648879457563281269120703404158613135195788908093573672641,
      8441242196095039060584066179111933186,
      7237005577332262213973186563042994240857116359379907606001950938285454250989,
      1839136655941055691988266215693423423507233504633057998078493423662401169211,
      2354103722332992246856434369486896358644598491614374585173670538112436279537);
    SquareTimes(2975531125133123119648879457563281269120703404158613135195788908093573672641,
      16882484392190078121168132358223866373,
      7237005577332262213973186563042994240857116359379907606001950938285454250989,
      2354103722332992246856434369486896358644598491614374585173670538112436279537,
      4920004540993080818926510171688855592961871752545423764577797010592978721295);
    SquareTimes(2975531125133123119648879457563281269120703404158613135195788908093573672641,
      33764968784380156242336264716447732747,
      7237005577332262213973186563042994240857116359379907606001950938285454250989,
      4920004540993080818926510171688855592961871752545423764577797010592978721295,
      7071431110398115835782137419425204145035260496960588362887213967186149410889);
    Square(2975531125133123119648879457563281269120703404158613135195788908093573672641,
      67529937568760312484672529432895465495,
      7237005577332262213973186563042994240857116359379907606001950938285454250989,
      7071431110398115835782137419425204145035260496960588362887213967186149410889,
      7033168557332178744724026851716211043078961682280489660056929063752281612104);
    SquareTimes(2975531125133123119648879457563281269120703404158613135195788908093573672641,
      135059875137520624969345058865790930990,
      7237005577332262213973186563042994240857116359379907606001950938285454250989,
      7033168557332178744724026851716211043078961682280489660056929063752281612104,
      756388708090973022785882083416756135475228330041905619567594630696580369677);
    Square(2975531125133123119648879457563281269120703404158613135195788908093573672641,
      270119750275041249938690117731581861981,
      7237005577332262213973186563042994240857116359379907606001950938285454250989,
      756388708090973022785882083416756135475228330041905619567594630696580369677,
      6817163481479588957410688307179371689983837992724045920370346596396547862423);
    Square(2975531125133123119648879457563281269120703404158613135195788908093573672641,
      540239500550082499877380235463163723962,
      7237005577332262213973186563042994240857116359379907606001950938285454250989,
      6817163481479588957410688307179371689983837992724045920370346596396547862423,
      569720305635546515374361406811570794840498633234037072277253241505365496414);
    SquareTimes(2975531125133123119648879457563281269120703404158613135195788908093573672641,
      1080479001100164999754760470926327447924,
      7237005577332262213973186563042994240857116359379907606001950938285454250989,
      569720305635546515374361406811570794840498633234037072277253241505365496414,
      5626405160998682371803600734236927774292653128386453411800877056311444140536);
    SquareTimes(2975531125133123119648879457563281269120703404158613135195788908093573672641,
      2160958002200329999509520941852654895849,
      7237005577332262213973186563042994240857116359379907606001950938285454250989,
      5626405160998682371803600734236927774292653128386453411800877056311444140536,
      3754783296966061661329265823458782680036096689860164850620636586113999896455);
    Square(2975531125133123119648879457563281269120703404158613135195788908093573672641,
      4321916004400659999019041883705309791699,
      7237005577332262213973186563042994240857116359379907606001950938285454250989,
      3754783296966061661329265823458782680036096689860164850620636586113999896455,
      2346674373723191331377566733531449705482701521793917209613737165026324328780);
    Square(2975531125133123119648879457563281269120703404158613135195788908093573672641,
      8643832008801319998038083767410619583398,
      7237005577332262213973186563042994240857116359379907606001950938285454250989,
      2346674373723191331377566733531449705482701521793917209613737165026324328780,
      7129266507327595520505310256887840710655029161937432501048032358036505841461);
    SquareTimes(2975531125133123119648879457563281269120703404158613135195788908093573672641,
      17287664017602639996076167534821239166796,
      7237005577332262213973186563042994240857116359379907606001950938285454250989,
      7129266507327595520505310256887840710655029161937432501048032358036505841461,
      21952488637824817233942468974013434453895289446742614537758430225598509235);
    Square(2975531125133123119648879457563281269120703404158613135195788908093573672641,
      34575328035205279992152335069642478333593,
      7237005577332262213973186563042994240857116359379907606001950938285454250989,
      21952488637824817233942468974013434453895289446742614537758430225598509235,
      6254408338159910703737247688877505317459628674264582066067309561819804391480);
    SquareTimes(2975531125133123119648879457563281269120703404158613135195788908093573672641,
      69150656070410559984304670139284956667186,
      7237005577332262213973186563042994240857116359379907606001950938285454250989,
      6254408338159910703737247688877505317459628674264582066067309561819804391480,
      5345391411404810418288101046996723597838208633604015262699350333929154546755);
    SquareTimes(2975531125133123119648879457563281269120703404158613135195788908093573672641,
      138301312140821119968609340278569913334373,
      7237005577332262213973186563042994240857116359379907606001950938285454250989,
      5345391411404810418288101046996723597838208633604015262699350333929154546755, 1);
  }

  /** The order of the base point is prime. */
  lemma OrderIsPrime()
    ensures Prime(L)
  {
    hide IsPower, Prime;
    LOrder(2975531125133123119648879457563281269120703404158613135195788908093573672641,
      276602624281642239937218680557139826668747,
      7237005577332262213973186563042994240857116359379907606001950938285454250989);
    Q1Prime();
    PrimeByOrder(7237005577332262213973186563042994240857116359379907606001950938285454250989,
      276602624281642239937218680557139826668747,
      2975531125133123119648879457563281269120703404158613135195788908093573672641,
      2233364593245673852815932892735013076939656528578070433728021143254617821614,
      918259049265850385831298250211759012539362291049224222049079815310237912731);
  }
}
