/** The truth tables of the INIT strings the mapper writes.

    Entry i of each table is the LUT output for the input index
    i = I0 + 2*I1 + 4*I2 + 8*I3. */
module Inits {
  import opened Wrappers
  import opened TruthTable

  /** AND of two inputs. */
  lemma Table8()
    ensures DecodeInit("8") == Some([false, false, false, true])
  {
    Decode1('8');
    assert "8" == ['8'];
    assert Nibble(8) == [false, false, false, true];
  }

  /** AND of three inputs. */
  lemma Table80()
    ensures DecodeInit("80") == Some([false, false, false, false, false, false, false, true])
  {
    Decode2('8', '0');
    assert "80" == ['8', '0'];
    assert Nibble(0) == [false, false, false, false];
    assert Nibble(8) == [false, false, false, true];
    assert Nibble(0) + Nibble(8) == [false, false, false, false, false, false, false, true];
  }

  /** AND of four inputs. */
  lemma Table8000()
    ensures DecodeInit("8000") == Some([false, false, false, false,
                                        false, false, false, false,
                                        false, false, false, false,
                                        false, false, false, true])
  {
    Decode4('8', '0', '0', '0');
    assert "8000" == ['8', '0', '0', '0'];
    assert Nibble(0) == [false, false, false, false];
    assert Nibble(8) == [false, false, false, true];
    assert Nibble(0) + Nibble(0) + Nibble(0) + Nibble(8) == [false, false, false, false,
                                                             false, false, false, false,
                                                             false, false, false, false,
                                                             false, false, false, true];
  }

  /** NOR of two inputs. */
  lemma Table1()
    ensures DecodeInit("1") == Some([true, false, false, false])
  {
    Decode1('1');
    assert "1" == ['1'];
    assert Nibble(1) == [true, false, false, false];
  }

  /** NOR of three inputs. */
  lemma Table01()
    ensures DecodeInit("01") == Some([true, false, false, false, false, false, false, false])
  {
    Decode2('0', '1');
    assert "01" == ['0', '1'];
    assert Nibble(0) == [false, false, false, false];
    assert Nibble(1) == [true, false, false, false];
    assert Nibble(1) + Nibble(0) == [true, false, false, false, false, false, false, false];
  }

  /** NOR of four inputs. */
  lemma Table0001()
    ensures DecodeInit("0001") == Some([true, false, false, false,
                                        false, false, false, false,
                                        false, false, false, false,
                                        false, false, false, false])
  {
    Decode4('0', '0', '0', '1');
    assert "0001" == ['0', '0', '0', '1'];
    assert Nibble(0) == [false, false, false, false];
    assert Nibble(1) == [true, false, false, false];
    assert Nibble(1) + Nibble(0) + Nibble(0) + Nibble(0) == [true, false, false, false,
                                                             false, false, false, false,
                                                             false, false, false, false,
                                                             false, false, false, false];
  }

  /** OR of two inputs. */
  lemma TableE()
    ensures DecodeInit("E") == Some([false, true, true, true])
  {
    Decode1('E');
    assert "E" == ['E'];
    assert Nibble(14) == [false, true, true, true];
  }

  /** OR of three inputs. */
  lemma TableFE()
    ensures DecodeInit("FE") == Some([false, true, true, true, true, true, true, true])
  {
    Decode2('F', 'E');
    assert "FE" == ['F', 'E'];
    assert Nibble(14) == [false, true, true, true];
    assert Nibble(15) == [true, true, true, true];
    assert Nibble(14) + Nibble(15) == [false, true, true, true, true, true, true, true];
  }

  /** OR of four inputs. */
  lemma TableFFFE()
    ensures DecodeInit("FFFE") == Some([false, true, true, true,
                                        true, true, true, true,
                                        true, true, true, true,
                                        true, true, true, true])
  {
    Decode4('F', 'F', 'F', 'E');
    assert "FFFE" == ['F', 'F', 'F', 'E'];
    assert Nibble(14) == [false, true, true, true];
    assert Nibble(15) == [true, true, true, true];
    assert Nibble(14) + Nibble(15) + Nibble(15) + Nibble(15) == [false, true, true, true,
                                                                 true, true, true, true,
                                                                 true, true, true, true,
                                                                 true, true, true, true];
  }

  /** XNOR of two inputs; also the one-bit equality and the (as-written) one-bit subtractor. */
  lemma Table9()
    ensures DecodeInit("9") == Some([true, false, false, true])
  {
    Decode1('9');
    assert "9" == ['9'];
    assert Nibble(9) == [true, false, false, true];
  }

  /** XNOR of three inputs. */
  lemma Table69()
    ensures DecodeInit("69") == Some([true, false, false, true, false, true, true, false])
  {
    Decode2('6', '9');
    assert "69" == ['6', '9'];
    assert Nibble(6) == [false, true, true, false];
    assert Nibble(9) == [true, false, false, true];
    assert Nibble(9) + Nibble(6) == [true, false, false, true, false, true, true, false];
  }

  /** XNOR of four inputs. */
  lemma Table9669()
    ensures DecodeInit("9669") == Some([true, false, false, true,
                                        false, true, true, false,
                                        false, true, true, false,
                                        true, false, false, true])
  {
    Decode4('9', '6', '6', '9');
    assert "9669" == ['9', '6', '6', '9'];
    assert Nibble(6) == [false, true, true, false];
    assert Nibble(9) == [true, false, false, true];
    assert Nibble(9) + Nibble(6) + Nibble(6) + Nibble(9) == [true, false, false, true,
                                                             false, true, true, false,
                                                             false, true, true, false,
                                                             true, false, false, true];
  }

  /** XOR of two inputs; also the one-bit inequality and the half adder. */
  lemma Table6()
    ensures DecodeInit("6") == Some([false, true, true, false])
  {
    Decode1('6');
    assert "6" == ['6'];
    assert Nibble(6) == [false, true, true, false];
  }

  /** XOR of three inputs. */
  lemma Table96()
    ensures DecodeInit("96") == Some([false, true, true, false, true, false, false, true])
  {
    Decode2('9', '6');
    assert "96" == ['9', '6'];
    assert Nibble(6) == [false, true, true, false];
    assert Nibble(9) == [true, false, false, true];
    assert Nibble(6) + Nibble(9) == [false, true, true, false, true, false, false, true];
  }

  /** XOR of four inputs. */
  lemma Table6996()
    ensures DecodeInit("6996") == Some([false, true, true, false,
                                        true, false, false, true,
                                        true, false, false, true,
                                        false, true, true, false])
  {
    Decode4('6', '9', '9', '6');
    assert "6996" == ['6', '9', '9', '6'];
    assert Nibble(6) == [false, true, true, false];
    assert Nibble(9) == [true, false, false, true];
    assert Nibble(6) + Nibble(9) + Nibble(9) + Nibble(6) == [false, true, true, false,
                                                             true, false, false, true,
                                                             true, false, false, true,
                                                             false, true, true, false];
  }

  /** Equality of two bit pairs: I0 = I1 and I2 = I3. */
  lemma Table9009()
    ensures DecodeInit("9009") == Some([true, false, false, true,
                                        false, false, false, false,
                                        false, false, false, false,
                                        true, false, false, true])
  {
    Decode4('9', '0', '0', '9');
    assert "9009" == ['9', '0', '0', '9'];
    assert Nibble(0) == [false, false, false, false];
    assert Nibble(9) == [true, false, false, true];
    assert Nibble(9) + Nibble(0) + Nibble(0) + Nibble(9) == [true, false, false, true,
                                                             false, false, false, false,
                                                             false, false, false, false,
                                                             true, false, false, true];
  }

  /** Inequality of two bit pairs. */
  lemma Table6FF6()
    ensures DecodeInit("6FF6") == Some([false, true, true, false,
                                        true, true, true, true,
                                        true, true, true, true,
                                        false, true, true, false])
  {
    Decode4('6', 'F', 'F', '6');
    assert "6FF6" == ['6', 'F', 'F', '6'];
    assert Nibble(6) == [false, true, true, false];
    assert Nibble(15) == [true, true, true, true];
    assert Nibble(6) + Nibble(15) + Nibble(15) + Nibble(6) == [false, true, true, false,
                                                               true, true, true, true,
                                                               true, true, true, true,
                                                               false, true, true, false];
  }

  /** The two low bits of a comparison A >= B, with A on I2, I3 and B on I0, I1. */
  lemma TableF731()
    ensures DecodeInit("F731") == Some([true, false, false, false,
                                        true, true, false, false,
                                        true, true, true, false,
                                        true, true, true, true])
  {
    Decode4('F', '7', '3', '1');
    assert "F731" == ['F', '7', '3', '1'];
    assert Nibble(1) == [true, false, false, false];
    assert Nibble(3) == [true, true, false, false];
    assert Nibble(7) == [true, true, true, false];
    assert Nibble(15) == [true, true, true, true];
    assert Nibble(1) + Nibble(3) + Nibble(7) + Nibble(15) == [true, false, false, false,
                                                              true, true, false, false,
                                                              true, true, true, false,
                                                              true, true, true, true];
  }

  /** I1 or not I0: the one-bit comparison A >= B with A on I1 and B on I0. */
  lemma TableD()
    ensures DecodeInit("D") == Some([true, false, true, true])
  {
    Decode1('D');
    assert "D" == ['D'];
    assert Nibble(13) == [true, false, true, true];
  }

  /** A 2-to-1 multiplexer: I2 ? I1 : I0. */
  lemma TableCA()
    ensures DecodeInit("CA") == Some([false, true, false, true, false, false, true, true])
  {
    Decode2('C', 'A');
    assert "CA" == ['C', 'A'];
    assert Nibble(10) == [false, true, false, true];
    assert Nibble(12) == [false, false, true, true];
    assert Nibble(10) + Nibble(12) == [false, true, false, true, false, false, true, true];
  }

  /** A 2-to-1 multiplexer forced to 0 when I3 is set. */
  lemma Table00CA()
    ensures DecodeInit("00CA") == Some([false, true, false, true,
                                        false, false, true, true,
                                        false, false, false, false,
                                        false, false, false, false])
  {
    Decode4('0', '0', 'C', 'A');
    assert "00CA" == ['0', '0', 'C', 'A'];
    assert Nibble(0) == [false, false, false, false];
    assert Nibble(10) == [false, true, false, true];
    assert Nibble(12) == [false, false, true, true];
    assert Nibble(10) + Nibble(12) + Nibble(0) + Nibble(0) == [false, true, false, true,
                                                               false, false, true, true,
                                                               false, false, false, false,
                                                               false, false, false, false];
  }
}
