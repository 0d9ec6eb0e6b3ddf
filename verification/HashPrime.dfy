/** The modulus of the hash of an index is prime. */
module HashPrime {
  import opened Primes

  const HASH_PRIME := 1610612741

  // Both 1399 and 5233 divide HASH_PRIME - 1, and 1485889432 is a number of order 1399 * 5233.

  lemma RootTo1399()
    ensures Power(1485889432, 1399, 1610612741) == 1492572786
  {
    hide *;
    FirstPower(1485889432, 1610612741);
    Doubled(1485889432, 1, 1485889432, 1610612741, 1370824499, 364940865);
    Doubled(1485889432, 2, 364940865, 1610612741, 82690166, 31943219);
    PlusOne(1485889432, 4, 31943219, 1610612741, 29469586, 852566382);
    Doubled(1485889432, 5, 852566382, 1610612741, 451299941, 729421643);
    Doubled(1485889432, 10, 729421643, 1610612741, 330343800, 86463649);
    PlusOne(1485889432, 20, 86463649, 1610612741, 79768040, 752659728);
    Doubled(1485889432, 21, 752659728, 1610612741, 351727421, 531363023);
    PlusOne(1485889432, 42, 531363023, 1610612741, 490215109, 45169167);
    Doubled(1485889432, 43, 45169167, 1610612741, 1266756, 294135693);
    PlusOne(1485889432, 86, 294135693, 1610612741, 271358289, 163336227);
    Doubled(1485889432, 87, 163336227, 1610612741, 16564331, 495854258);
    Doubled(1485889432, 174, 495854258, 1610612741, 152657084, 682423320);
    PlusOne(1485889432, 348, 682423320, 1610612741, 629577535, 19980805);
    Doubled(1485889432, 349, 19980805, 1610612741, 247876, 324659909);
    PlusOne(1485889432, 698, 324659909, 1610612741, 299518757, 1584498751);
    Doubled(1485889432, 699, 1584498751, 1610612741, 1558808165, 596729736);
    PlusOne(1485889432, 1398, 596729736, 1610612741, 550519926, 1492572786);
  }

  lemma RootTo5233()
    ensures Power(1485889432, 5233, 1610612741) == 1080352817
  {
    hide *;
    FirstPower(1485889432, 1610612741);
    Doubled(1485889432, 1, 1485889432, 1610612741, 1370824499, 364940865);
    Doubled(1485889432, 2, 364940865, 1610612741, 82690166, 31943219);
    PlusOne(1485889432, 4, 31943219, 1610612741, 29469586, 852566382);
    Doubled(1485889432, 5, 852566382, 1610612741, 451299941, 729421643);
    Doubled(1485889432, 10, 729421643, 1610612741, 330343800, 86463649);
    Doubled(1485889432, 20, 86463649, 1610612741, 4641688, 765848393);
    Doubled(1485889432, 40, 765848393, 1610612741, 364161878, 567394851);
    PlusOne(1485889432, 80, 567394851, 1610612741, 523456689, 207040083);
    Doubled(1485889432, 81, 207040083, 1610612741, 26614464, 1155361065);
    PlusOne(1485889432, 162, 1155361065, 1610612741, 1065891727, 595071373);
    Doubled(1485889432, 163, 595071373, 1610612741, 219860386, 31327103);
    PlusOne(1485889432, 326, 31327103, 1610612741, 28901181, 934328375);
    Doubled(1485889432, 327, 934328375, 1610612741, 542010807, 816248638);
    Doubled(1485889432, 654, 816248638, 1610612741, 413669792, 1474835172);
    Doubled(1485889432, 1308, 1474835172, 1610612741, 1350503897, 1289917907);
    Doubled(1485889432, 2616, 1289917907, 1610612741, 1033077762, 878295007);
    PlusOne(1485889432, 5232, 878295007, 1610612741, 810281227, 1080352817);
  }

  lemma OrderOfRoot()
    ensures Power(1492572786, 5233, 1610612741) == 1
  {
    hide *;
    FirstPower(1492572786, 1610612741);
    Doubled(1492572786, 1, 1492572786, 1610612741, 1383183843, 826658133);
    Doubled(1492572786, 2, 826658133, 1610612741, 424288006, 537961243);
    PlusOne(1492572786, 4, 537961243, 1610612741, 498534682, 564949636);
    Doubled(1492572786, 5, 564949636, 1610612741, 198165631, 1099627925);
    Doubled(1492572786, 10, 1099627925, 1610612741, 750758728, 706052177);
    Doubled(1492572786, 20, 706052177, 1610612741, 309515542, 1163718707);
    Doubled(1492572786, 40, 1163718707, 1610612741, 840823616, 158460393);
    PlusOne(1492572786, 80, 158460393, 1610612741, 146847013, 135072265);
    Doubled(1492572786, 81, 135072265, 1610612741, 11327686, 1374582899);
    PlusOne(1492572786, 162, 1374582899, 1610612741, 1273841299, 966996055);
    Doubled(1492572786, 163, 966996055, 1610612741, 580574924, 686056341);
    PlusOne(1492572786, 326, 686056341, 1610612741, 635776060, 1580555566);
    Doubled(1492572786, 327, 1580555566, 1610612741, 1551059316, 817235200);
    Doubled(1492572786, 654, 817235200, 1610612741, 414670364, 545532276);
    Doubled(1492572786, 1308, 545532276, 1610612741, 184777790, 1329917786);
    Doubled(1492572786, 2616, 1329917786, 1610612741, 1098141888, 1280546788);
    PlusOne(1492572786, 5232, 1280546788, 1610612741, 1186696987, 1);
  }

  lemma Prime1399()
    ensures Prime(1399)
  {
    assert NoneOfTen(1399, 2) && NoneOfTen(1399, 12) && NoneOfTen(1399, 22) && NoneOfTen(1399, 32);
    hide NoneOfTen, Prime;
    SmallPrime(1399, [2, 12, 22, 32]);
  }

  lemma Prime5233()
    ensures Prime(5233)
  {
    assert NoneOfTen(5233, 2) && NoneOfTen(5233, 12) && NoneOfTen(5233, 22) && NoneOfTen(5233, 32);
    assert NoneOfTen(5233, 42) && NoneOfTen(5233, 52) && NoneOfTen(5233, 62) && NoneOfTen(5233, 72);
    hide NoneOfTen, Prime;
    SmallPrime(5233, [2, 12, 22, 32, 42, 52, 62, 72]);
  }

  lemma RootIsApart()
    ensures Apart(1492572786, 290964600, 1610612741) && Apart(1080352817, 446570089, 1610612741)
  {
  }

  /** The modulus that index_hash uses has no divisors. */
  lemma HashPrimeIsPrime()
    ensures Prime(HASH_PRIME)
  {
    hide Power, Times, Prime, Apart;
    Prime1399();
    Prime5233();
    RootTo1399();
    RootTo5233();
    OrderOfRoot();
    PowerOfPower(1485889432, 1399, 5233, 1610612741);
    RootIsApart();
    CertifiedIsPrime(1610612741, 1485889432, 1399, 5233, 290964600, 446570089);
  }
}
