/** The cipher on literal keys, nonces and texts: sections 2.1.1 and 2.4.2 of RFC 7539, and the
    XChaCha20 vector that the tests of lib/chacha20 compare with. The rounds are checked half by half. */
module ChaChaVectors {
  import opened Words
  import opened ChaChaCore
  import opened Engines
  import opened Keystreams
  import opened Ciphers

  lemma QuarterVector()
    ensures QuarterWords(Quad(0x11111111, 0x01020304, 0x9b8d6f43, 0x01234567)) ==
            Quad(0xea2a92f4, 0xcb1cf8ce, 0x4581472e, 0x5881c4bb)
  {
  }

  lemma OneMore(v: State, n: nat, w: State, m: State, z: State)
    requires DoubleRounds(v, n) == w && ColumnRound(w) == m && DiagonalRound(m) == z
    ensures DoubleRounds(v, n + 1) == z
  {
    hide ColumnRound, DiagonalRound;
  }

  // The rounds of block 1 of section 2.4.2.

  const R0: State :=
    [0x61707865, 0x3320646e, 0x79622d32, 0x6b206574, 0x03020100, 0x07060504, 0x0b0a0908, 0x0f0e0d0c,
     0x13121110, 0x17161514, 0x1b1a1918, 0x1f1e1d1c, 0x00000001, 0x00000000, 0x4a000000, 0x00000000]
  const R1: State :=
    [0xabbaa25c, 0x1eca51ea, 0x7354fbdf, 0x83d2dc69, 0x3a465196, 0x2bf9e4ee, 0xb12fb628, 0xf05b6976,
     0x6b3ca454, 0x38f41bb1, 0xbf8a9ac9, 0xe444df3b, 0xdec62ed2, 0xb86bcc77, 0x6e35b345, 0x52a647f1]
  const R2: State :=
    [0xd767e205, 0x846003b4, 0xb2460395, 0x49bdecdd, 0xa7b1b52a, 0x8f3624d1, 0xb9415d8f, 0xd128051b,
     0x7937ce4a, 0xdeebddb4, 0x5cad36f2, 0xab177919, 0xa01288a2, 0x64d84e1b, 0x073cf1d7, 0xdc671717]
  const R3: State :=
    [0xc0a18b26, 0xdab36530, 0x8b698672, 0x0e8df62a, 0x4f1461c2, 0xc0f78ada, 0xb4a4c34b, 0xcff65883,
     0xc519db34, 0x729cd3be, 0x888b6cc8, 0xf437e883, 0x2c542ddf, 0x2d127ebc, 0x9aeac91b, 0x6230a8e8]
  const R4: State :=
    [0xbf43ce78, 0x13e46d52, 0xabf0099e, 0x6d4e9dd4, 0xa1b908e2, 0x844c8567, 0x1356b95f, 0x398712a7,
     0x1ee3248c, 0xcaef37f9, 0xf2a22172, 0x3aaae9a5, 0x40ce5e16, 0xb97fd30b, 0xb95a9cf3, 0xab2dd101]
  const R5: State :=
    [0xc5c297f3, 0x75f3e947, 0x2933d73b, 0xe5295ad5, 0x116349a9, 0xd5cb8979, 0xb62d9df3, 0x97c7bde8,
     0x36e7060a, 0x2e69619c, 0x8e814f05, 0xef7c2521, 0x8eb7c14c, 0x41c80854, 0x3dd12777, 0x53572d84]
  const R6: State :=
    [0xb5789656, 0x21c5cf77, 0x54a8e95c, 0xfce1ae7f, 0xc6a2bccf, 0x1169be99, 0x6270918e, 0x35d19f90,
     0xb3c6f706, 0x99d84f78, 0x2bc8a797, 0xe960a91e, 0xb36de167, 0xdf686fc9, 0xe865227f, 0x905e8fb9]
  const R7: State :=
    [0x33c68d2f, 0xeb81f4bd, 0xa083594c, 0x9fed07fb, 0xf392fbae, 0xcca9b235, 0x86f334b9, 0xc2edc2b5,
     0xea4c1ffd, 0xd3cb35c9, 0x9a64380b, 0x06bc6269, 0x84425981, 0x5818fa0a, 0x160630f8, 0x5ba5165e]
  const R8: State :=
    [0x728d9057, 0xe936c88a, 0x0d0e4d2c, 0x778e22f1, 0x6516ed81, 0xbba36404, 0x194496a7, 0x28483d3e,
     0xd5cda151, 0xe6c43293, 0x7b6a163b, 0x38f31639, 0xc13ebd99, 0x057645eb, 0xdfa77744, 0xb7cb825b]
  const R9: State :=
    [0x5d4b2d09, 0x4fddeb46, 0x8ebc5467, 0x900ce361, 0xf6725c92, 0xbb806ed1, 0xe3696f29, 0x021cfd32,
     0xa04a4b88, 0x0874be65, 0x3bafa24a, 0x9432bac8, 0x0a3b939d, 0xb84aea26, 0x2bad921a, 0x78cb7c72]
  const R10: State :=
    [0x9f955567, 0x0cfe3643, 0xe96be77a, 0x498993f5, 0xcb600cea, 0x226827f3, 0xc177eed9, 0x25e44634,
     0x30d95d6d, 0x169c941b, 0x608d69c2, 0x6a343409, 0x0c0f3fc5, 0xd4cfe952, 0x603e27e4, 0x3d356778]
  const R11: State :=
    [0x477e36a1, 0xc9e9dcfc, 0xd8883f86, 0x8b732a4f, 0x1b65e8d2, 0xd5cdc260, 0xcf737ddf, 0xfc66d8aa,
     0x78be1f81, 0x5b28e542, 0x923a8fc8, 0x49fd9d97, 0xea505b1a, 0x8d27557e, 0x3ff55b29, 0x22781736]
  const R12: State :=
    [0xde15ae5c, 0x60351327, 0x7f0d4bd6, 0xf044dea6, 0x096151d3, 0xe545b831, 0x6441a4c3, 0x80526ed1,
     0x091e977b, 0xef790926, 0xa3033e2b, 0x401f3b05, 0xf4602a61, 0x43121e32, 0x4c478ab8, 0x22916f30]
  const R13: State :=
    [0xc72b13cf, 0xb0f6bd72, 0x37ee682f, 0xbed4fb9a, 0xecc86fa3, 0x72edf485, 0x39b20bdc, 0x16c3c25c,
     0x986d837f, 0x619e29f3, 0xecec1381, 0xf61029a7, 0x6500d8ed, 0x9cbb1a65, 0xcfc7264d, 0x93a99c9c]
  const R14: State :=
    [0xceb45789, 0x05d1fd2e, 0x482f7884, 0x19bc4f79, 0x93aace8a, 0x14dcdf35, 0x878641b0, 0x3dd77cb9,
     0x8b06e300, 0x7b39b1a1, 0xfeb2f68b, 0x7a263f63, 0x72728614, 0xc1aa8d78, 0xcc2b2354, 0x7cfe395a]
  const R15: State :=
    [0xd639a19d, 0xafe7e9eb, 0x1b6f4c2d, 0xe8fa6157, 0x32ec148d, 0xd8b895ae, 0x6d9e2976, 0x5f18e448,
     0x69bfa3a3, 0xc8887ca3, 0xa762adab, 0x01d8a4ed, 0x3eb1b076, 0xfc32effe, 0x0f4fb382, 0x924a3a1d]
  const R16: State :=
    [0xb6ef0e0b, 0x3b9b3ff8, 0xb76981da, 0x444291a4, 0x97c2874d, 0x0ba46f35, 0x8cdd9597, 0xd9edd00b,
     0x2b528ac5, 0xb3739ece, 0x6deb9e1e, 0x310c97bc, 0x8c1ccf98, 0xe2076068, 0x24850d82, 0xb932b3bb]
  const R17: State :=
    [0x6b558675, 0x19f2e7be, 0x7afe87b1, 0xed1bbf5b, 0xfdea5f03, 0xa47926f5, 0x38810050, 0x696528ee,
     0x1b5825a3, 0x39fbcadc, 0x96c67240, 0x123997fd, 0x9544d831, 0xb74286d6, 0x0de77360, 0x0f18593f]
  const R18: State :=
    [0x352ce060, 0xd86a2fbd, 0x2966542b, 0xf9f2040b, 0x7b3cfe3d, 0xd10d9090, 0xcbd6d98e, 0xd510b7e2,
     0x80a882e3, 0x741d9c51, 0x04fc29d7, 0x9861ea1c, 0x55e88ae8, 0x2f070a1f, 0xcce2ea94, 0x79e0b6c1]
  const R19: State :=
    [0xd9cf797f, 0x849cdf44, 0xf0e0ae38, 0xb07482f6, 0x6f7e09d3, 0xf624fc6b, 0x31654931, 0x59b9590e,
     0x8fbb66f1, 0x0cc9570f, 0x99c14aed, 0xfdc2b5bb, 0xba9cfe8d, 0xce59344e, 0xcd97e737, 0x583414bd]
  const R20: State :=
    [0x91e0d6bd, 0xaeb8b6d2, 0xf5c5b0fd, 0x81fcfe44, 0x7f1d128c, 0xdb002739, 0xe1c04676, 0x69c1e692,
     0x8ff82a7a, 0x7af44b5e, 0xb25a609d, 0x15750ed1, 0x40ba4c78, 0xcd343ec6, 0x022c21ea, 0xb7417df0]

  lemma RHalf1() ensures ColumnRound(R0) == R1 { Columns(R0, R1); }
  lemma RHalf2() ensures DiagonalRound(R1) == R2 { Diagonals(R1, R2); }
  lemma RHalf3() ensures ColumnRound(R2) == R3 { Columns(R2, R3); }
  lemma RHalf4() ensures DiagonalRound(R3) == R4 { Diagonals(R3, R4); }
  lemma RHalf5() ensures ColumnRound(R4) == R5 { Columns(R4, R5); }
  lemma RHalf6() ensures DiagonalRound(R5) == R6 { Diagonals(R5, R6); }
  lemma RHalf7() ensures ColumnRound(R6) == R7 { Columns(R6, R7); }
  lemma RHalf8() ensures DiagonalRound(R7) == R8 { Diagonals(R7, R8); }
  lemma RHalf9() ensures ColumnRound(R8) == R9 { Columns(R8, R9); }
  lemma RHalf10() ensures DiagonalRound(R9) == R10 { Diagonals(R9, R10); }
  lemma RHalf11() ensures ColumnRound(R10) == R11 { Columns(R10, R11); }
  lemma RHalf12() ensures DiagonalRound(R11) == R12 { Diagonals(R11, R12); }
  lemma RHalf13() ensures ColumnRound(R12) == R13 { Columns(R12, R13); }
  lemma RHalf14() ensures DiagonalRound(R13) == R14 { Diagonals(R13, R14); }
  lemma RHalf15() ensures ColumnRound(R14) == R15 { Columns(R14, R15); }
  lemma RHalf16() ensures DiagonalRound(R15) == R16 { Diagonals(R15, R16); }
  lemma RHalf17() ensures ColumnRound(R16) == R17 { Columns(R16, R17); }
  lemma RHalf18() ensures DiagonalRound(R17) == R18 { Diagonals(R17, R18); }
  lemma RHalf19() ensures ColumnRound(R18) == R19 { Columns(R18, R19); }
  lemma RHalf20() ensures DiagonalRound(R19) == R20 { Diagonals(R19, R20); }

  lemma RRounds()
    ensures DoubleRounds(R0, 10) == R20
  {
    hide DiagonalRound, ColumnRound;
    assert DoubleRounds(R0, 0) == R0;
    RHalf1(); RHalf2(); OneMore(R0, 0, R0, R1, R2);
    RHalf3(); RHalf4(); OneMore(R0, 1, R2, R3, R4);
    RHalf5(); RHalf6(); OneMore(R0, 2, R4, R5, R6);
    RHalf7(); RHalf8(); OneMore(R0, 3, R6, R7, R8);
    RHalf9(); RHalf10(); OneMore(R0, 4, R8, R9, R10);
    RHalf11(); RHalf12(); OneMore(R0, 5, R10, R11, R12);
    RHalf13(); RHalf14(); OneMore(R0, 6, R12, R13, R14);
    RHalf15(); RHalf16(); OneMore(R0, 7, R14, R15, R16);
    RHalf17(); RHalf18(); OneMore(R0, 8, R16, R17, R18);
    RHalf19(); RHalf20(); OneMore(R0, 9, R18, R19, R20);
  }

  // The rounds that make the XChaCha20 subkey.

  const H0: State :=
    [0x61707865, 0x3320646e, 0x79622d32, 0x6b206574, 0x6455271b, 0xd485e973, 0x1951cd62, 0xc7469a7a,
     0x9e540960, 0xf27464ac, 0x08eec406, 0x8983f644, 0xe96e6969, 0x732bb655, 0xa8bd62cd, 0xd673fc75]
  const H1: State :=
    [0x46d6ae96, 0xdaaaf18b, 0xf5eb6615, 0xc6693493, 0xd73e56aa, 0xd4be786f, 0x49b90018, 0xf92addf5,
     0xd4bf73bb, 0x0caddf5a, 0x53a41981, 0x7ff0611e, 0x3f823db0, 0x1e850621, 0xb25c1b6d, 0xf2d086c5]
  const H2: State :=
    [0xd33fb922, 0xcc3261fe, 0x0aa20306, 0xa3477ff9, 0xe8f29a58, 0x8ffc12a1, 0x59f5d265, 0xab22355d,
     0xa0ddfa96, 0xb44e1188, 0xf4b56a38, 0x6d7d9bff, 0x217a1f00, 0x89f29548, 0x17500233, 0xff506772]
  const H3: State :=
    [0x5d0ab3d4, 0xfb8ac63c, 0xe5917eca, 0x55f00e9e, 0xafa9dafe, 0x32cb71b6, 0xf1a1370a, 0xf3d6fb89,
     0x5d8733ef, 0xf339c77e, 0x951aeb31, 0x1461f4bf, 0x702e9c11, 0x5d13e01a, 0xc90d0d32, 0xd4bfa787]
  const H4: State :=
    [0xc348e7e8, 0x7798e587, 0x3da6aa93, 0x1a88b120, 0x44474a75, 0xcb02c2b7, 0xaf7dcde7, 0x60c8a8c1,
     0xe6ffa111, 0xfe664910, 0x5ce4c7db, 0x453213da, 0xcf788216, 0xef2ee8a7, 0x267db4fe, 0x45bc8141]
  const H5: State :=
    [0xc9c8ff8d, 0x15e2d79d, 0x3311b0db, 0x2af1c1b2, 0x5d01216c, 0x9e9822b4, 0x8417297d, 0x38eab460,
     0x1a82cf72, 0xba7a1f1a, 0xbee51633, 0x6fd1b2b9, 0x83376579, 0x7b7a2855, 0x957b82ff, 0x51ff5ff2]
  const H6: State :=
    [0x6f377c61, 0xd849b61c, 0x12b5eb2c, 0x28ffd733, 0x160ffccd, 0x040a61e3, 0x57152060, 0xaa87d372,
     0x43ec8a57, 0x3b20ebec, 0xc0de4ee3, 0xfee19f42, 0x2aacd1bc, 0xdbfbaa5f, 0x1ec5ba49, 0x8445ff12]
  const H7: State :=
    [0x91b078d5, 0x857ba7cb, 0xd8241de7, 0xc5cf1a86, 0x9f43ee01, 0xa36c0fbe, 0x2bde809d, 0x50aa3a9f,
     0x0f56787b, 0xd46157d3, 0x540eaf5a, 0xcce63b94, 0x22d73e39, 0xdba06438, 0xe16ae969, 0x784d4490]
  const H8: State :=
    [0x144de0ca, 0x4655f4f6, 0x1de5ba51, 0x2837db17, 0x45ccc2a6, 0xc7605a58, 0xb2437fb9, 0x24e560a9,
     0xa75eab0a, 0x8faf4b15, 0x6ebf9883, 0xe79f4a71, 0x04677b50, 0x5b493f21, 0xd95f6ec9, 0x4ead9bd8]
  const H9: State :=
    [0x96ccb71b, 0xfd3b1bc5, 0xee0d4126, 0x7005c5f5, 0x6d3e3f28, 0xf7886b5d, 0x177ad7c6, 0xca8ce243,
     0x6c686fd5, 0x546bdca1, 0x91caf2b3, 0xa57d93f1, 0xece9664e, 0x544d3a8d, 0xce4850ba, 0x1dc645d0]
  const H10: State :=
    [0x4d26d367, 0xaa6ea64e, 0xd4891835, 0xaa4c618f, 0x4697ef2c, 0xb2e54f9c, 0x8c9627b9, 0xd665daf7,
     0xf4423f79, 0x958573ac, 0x87b47a70, 0xe6a19e8c, 0xab5e123f, 0x6df4e2cd, 0xeb7283ff, 0x8e40f42a]
  const H11: State :=
    [0x2d361aba, 0xfc10e7ce, 0x63558ce3, 0x082ad418, 0x33c5b8e3, 0x1c7fed3d, 0xfd6fa4c2, 0xa807d658,
     0x5f10d356, 0xe4840e3e, 0x87cc93bc, 0x3628983e, 0x9a225afd, 0x37d769eb, 0x44068edf, 0x86daeac0]
  const H12: State :=
    [0x02975e8e, 0x9f72bbaf, 0x78f8ef59, 0x0f5e0a51, 0x39a40bd9, 0xbb884056, 0xce131b44, 0x97b7a67f,
     0x92b4e352, 0x611e3541, 0x15964617, 0x2c6e0929, 0x1fd80d49, 0x28d3d372, 0x7a75a70d, 0xa091e2ef]
  const H13: State :=
    [0xad0a366b, 0x396ebeb6, 0xa0994b70, 0x5282df61, 0x9b21fdb6, 0x08c218ba, 0x88e6274a, 0xf46d9e4b,
     0x1df88fff, 0xaa624680, 0xcc9c8c9d, 0x3c85f5ad, 0x241588ca, 0x19cc9f16, 0x0976090d, 0xbdd8e500]
  const H14: State :=
    [0xee8d0705, 0x321f283b, 0x4d2f0fc7, 0xbb132b6c, 0x9153ca22, 0x08090a93, 0x6a8a38f7, 0x80860457,
     0x17292a04, 0x884ce9c1, 0x1ed0a5f5, 0x811f564a, 0xd5ce7a5c, 0x82830d3b, 0x09cfbe6f, 0xa80f1144]
  const H15: State :=
    [0xf1c1d666, 0xf4b82ed2, 0x3d8310b0, 0x4a74a3b5, 0x600cd986, 0xab7019d7, 0xcc766276, 0x063f535e,
     0x7d211c8c, 0x15d91c37, 0x68512b36, 0xb2d70d54, 0xba7c485a, 0x4d9679cb, 0x52aec6cb, 0xf3302374]
  const H16: State :=
    [0x453ff94b, 0xbfdb95c1, 0xdb5e4ddb, 0x175f8857, 0xf2430776, 0x1ff5618d, 0xba8c3ad5, 0xd929b5d0,
     0x3629baa6, 0x813a8d12, 0xb231e3cd, 0x55d81c0c, 0xc9ee9366, 0x9b438fc6, 0xaf7078ac, 0x76974a96]
  const H17: State :=
    [0x6369547a, 0x5ad385b1, 0xb835aa3c, 0xf208df61, 0xcec15d59, 0x40bed217, 0xcaf291f4, 0x4e404541,
     0x987bd103, 0x5583f3c7, 0xcbdec4af, 0x83e321b0, 0xceaa17f0, 0x5bc12222, 0x2990a648, 0xb9597f86]
  const H18: State :=
    [0x572b9cd5, 0xdf949c91, 0xbd355236, 0x38d1c0a5, 0xd3af9435, 0x3a783569, 0x3fc70bfe, 0xaae9cf3c,
     0xcfeab127, 0x13a0dcc3, 0x6177862e, 0x45b10afb, 0xc177fddf, 0x6a0f8270, 0x2329ffa2, 0x3c81a40e]
  const H19: State :=
    [0x1b699600, 0x51a7c7cf, 0x93dc3200, 0x760c2d95, 0xd816ae54, 0xbcf68ed1, 0x91f47ced, 0xe1821363,
     0x593e49aa, 0x94e318c8, 0x4dfc3b35, 0x55939992, 0xbc7dacd7, 0x2db7cc02, 0x4aedd532, 0xe3f2af5d]
  const H20: State :=
    [0xc7e18b28, 0x8bf62f7c, 0x507d4594, 0xd95f13a3, 0x74deea56, 0x5c2ba254, 0x9b3e0b39, 0xd1102e92,
     0xfebd206c, 0x27d58a6e, 0x47393113, 0xdb6f96d6, 0x9d709d63, 0x1c1d7dd9, 0x84176cd7, 0x6db0ba4c]

  lemma HHalf1() ensures ColumnRound(H0) == H1 { Columns(H0, H1); }
  lemma HHalf2() ensures DiagonalRound(H1) == H2 { Diagonals(H1, H2); }
  lemma HHalf3() ensures ColumnRound(H2) == H3 { Columns(H2, H3); }
  lemma HHalf4() ensures DiagonalRound(H3) == H4 { Diagonals(H3, H4); }
  lemma HHalf5() ensures ColumnRound(H4) == H5 { Columns(H4, H5); }
  lemma HHalf6() ensures DiagonalRound(H5) == H6 { Diagonals(H5, H6); }
  lemma HHalf7() ensures ColumnRound(H6) == H7 { Columns(H6, H7); }
  lemma HHalf8() ensures DiagonalRound(H7) == H8 { Diagonals(H7, H8); }
  lemma HHalf9() ensures ColumnRound(H8) == H9 { Columns(H8, H9); }
  lemma HHalf10() ensures DiagonalRound(H9) == H10 { Diagonals(H9, H10); }
  lemma HHalf11() ensures ColumnRound(H10) == H11 { Columns(H10, H11); }
  lemma HHalf12() ensures DiagonalRound(H11) == H12 { Diagonals(H11, H12); }
  lemma HHalf13() ensures ColumnRound(H12) == H13 { Columns(H12, H13); }
  lemma HHalf14() ensures DiagonalRound(H13) == H14 { Diagonals(H13, H14); }
  lemma HHalf15() ensures ColumnRound(H14) == H15 { Columns(H14, H15); }
  lemma HHalf16() ensures DiagonalRound(H15) == H16 { Diagonals(H15, H16); }
  lemma HHalf17() ensures ColumnRound(H16) == H17 { Columns(H16, H17); }
  lemma HHalf18() ensures DiagonalRound(H17) == H18 { Diagonals(H17, H18); }
  lemma HHalf19() ensures ColumnRound(H18) == H19 { Columns(H18, H19); }
  lemma HHalf20() ensures DiagonalRound(H19) == H20 { Diagonals(H19, H20); }

  lemma HRounds()
    ensures DoubleRounds(H0, 10) == H20
  {
    hide DiagonalRound, ColumnRound;
    assert DoubleRounds(H0, 0) == H0;
    HHalf1(); HHalf2(); OneMore(H0, 0, H0, H1, H2);
    HHalf3(); HHalf4(); OneMore(H0, 1, H2, H3, H4);
    HHalf5(); HHalf6(); OneMore(H0, 2, H4, H5, H6);
    HHalf7(); HHalf8(); OneMore(H0, 3, H6, H7, H8);
    HHalf9(); HHalf10(); OneMore(H0, 4, H8, H9, H10);
    HHalf11(); HHalf12(); OneMore(H0, 5, H10, H11, H12);
    HHalf13(); HHalf14(); OneMore(H0, 6, H12, H13, H14);
    HHalf15(); HHalf16(); OneMore(H0, 7, H14, H15, H16);
    HHalf17(); HHalf18(); OneMore(H0, 8, H16, H17, H18);
    HHalf19(); HHalf20(); OneMore(H0, 9, H18, H19, H20);
  }

  // The rounds of the first XChaCha20 block.

  const X0: State :=
    [0x61707865, 0x3320646e, 0x79622d32, 0x6b206574, 0xc7e18b28, 0x8bf62f7c, 0x507d4594, 0xd95f13a3,
     0x9d709d63, 0x1c1d7dd9, 0x84176cd7, 0x6db0ba4c, 0x00000000, 0x00000000, 0x03e01982, 0x370b7a6b]
  const X1: State :=
    [0xee2bd9fe, 0xa04fc7a9, 0xe1079eb8, 0x6865b39e, 0x9bd2e9c1, 0x5ce7ceda, 0xcc4aa912, 0x84115654,
     0x47ee73a2, 0x5580fc22, 0x32b0bea0, 0x8aee182b, 0xa6f0aced, 0xa578bf33, 0x4354878a, 0x19c0ea6b]
  const X2: State :=
    [0x890e3b70, 0x5152eb6b, 0x5b3e566f, 0x4edd9c17, 0xcaa02d19, 0x9b93d307, 0xeecf4947, 0xf0913832,
     0x93c44313, 0x7931bee2, 0x32cdb53e, 0x6b65e422, 0x0421018d, 0x01960f11, 0x08db7b54, 0xbd69a3cb]
  const X3: State :=
    [0xdf2a1bef, 0x54dc1982, 0x5522df4c, 0xd5508570, 0x37a41f50, 0xbfe213c6, 0xac56a9e9, 0x87367610,
     0x2b14fb58, 0xea8a9f37, 0xd84d92c5, 0xb4efddcb, 0x2e4c60b6, 0xbff4f2e5, 0xc09d9ab1, 0xd20777a2]
  const X4: State :=
    [0x0bcd98ad, 0xbb7cd2b4, 0x5eeaaabb, 0x9443a6b5, 0x1424dfee, 0xfdf76db3, 0x406c1420, 0x031050d2,
     0x269775fe, 0x5b67484a, 0x0b3a8623, 0xfacad761, 0xa1fdca18, 0x53c916f9, 0x326adcaa, 0xdad5a653]
  const X5: State :=
    [0x1eb0b56e, 0xcf5f8566, 0xa1ceb1b7, 0x8e974c7f, 0x4c54b579, 0x4ea52fb3, 0x5fa6ff17, 0x71251f3c,
     0x0c2695b9, 0x73760ea0, 0x2cc8bf22, 0x8fa11ec6, 0x330b61ac, 0xc16fdb99, 0xbf1c8bc3, 0x4301f9df]
  const X6: State :=
    [0xa9823597, 0x7b62c72a, 0x5a5a675e, 0x370a9d16, 0xda6029b9, 0xe770aefc, 0x88906e32, 0x905ee687,
     0x48462ba6, 0x2faa5b4d, 0xc5e2b12b, 0x294d6271, 0xb3db279e, 0x30b4c251, 0x31f8e6bd, 0x7c1bc3b5]
  const X7: State :=
    [0xcb08c107, 0x7307f65b, 0xf18bcca8, 0x571fd32f, 0x91fd92e7, 0x78b52722, 0xc864f3c8, 0xb41ab417,
     0x88059a92, 0x54c5ea7b, 0x9f303eff, 0xa0de7afa, 0xc6f13eb3, 0x70a43cc7, 0xa61fbac2, 0x37685d17]
  const X8: State :=
    [0xfd0d4af6, 0xf422e5f3, 0xf35ebfc5, 0x63d7101c, 0x20791d27, 0x71dae89f, 0x990eb3cf, 0xa884f293,
     0x6ae936e3, 0x34f9583c, 0x87acd71c, 0x2787e6b7, 0xb2186e20, 0x266ac74f, 0x035f1ebf, 0x333e2348]
  const X9: State :=
    [0x1d40cd32, 0x2d329382, 0xf9c58a71, 0xc9a4b0cd, 0x99fbc488, 0xc93a03f4, 0xc2df9fc7, 0xdb3c0f98,
     0xee89929c, 0x2ea6b0f7, 0xe2dda9e2, 0x8cfed601, 0x7d62ac1b, 0xefd01524, 0xee054394, 0x438fafe8]
  const X10: State :=
    [0x4b3d0baf, 0xdfdda231, 0x8130f471, 0xa341c51e, 0x08dafc6d, 0xcc484298, 0x25e52caa, 0xd51b899b,
     0x9b856d7b, 0xe5b0fa31, 0x555aaa0c, 0xbb80a4b1, 0x8f2f4140, 0x1dcea00e, 0x8048bb95, 0xf3ae5a35]
  const X11: State :=
    [0xdf6606df, 0xbb0e332c, 0x86f22dbb, 0xe3f13f0a, 0x46e7c5ca, 0x899d3c7e, 0x17dd135a, 0x28ed6513,
     0x1fc03148, 0xf3fb741b, 0x6bf3b686, 0x4dc22a9b, 0x3adde896, 0xc982c7ff, 0x7c0ae51c, 0x7db4f9f7]
  const X12: State :=
    [0x78777e4d, 0xb3040546, 0x7f0af88f, 0x6bcb4e06, 0x1774a54c, 0xbe7f8785, 0x6c1e1778, 0xdd86073f,
     0xb09069cf, 0xd8dca078, 0x0408c5ff, 0x10c082ee, 0x14ed701d, 0x3b9ed22a, 0x0318d58a, 0xdd6afac2]
  const X13: State :=
    [0xaa05e4cf, 0x98549567, 0x76bd9a5f, 0x2a52b721, 0xc6897fcf, 0xa636e3e5, 0xcecb5db8, 0x3528393a,
     0x8594d3c9, 0xed9d655b, 0xfa091ce3, 0x956b31ae, 0x817fcef9, 0xb5df7ac6, 0x30726eb3, 0xd5231a85]
  const X14: State :=
    [0x145b3f54, 0xfb7b54f8, 0x68996556, 0x76789f26, 0x6e630082, 0x754db479, 0xafe886f2, 0xee67bca4,
     0xf56f5ec4, 0x8140ae37, 0x36f4edc8, 0x7104b0d4, 0x9db298c6, 0xc67b6cc1, 0x3b5f882e, 0x6aba4bc6]
  const X15: State :=
    [0x4a936ef7, 0x3dd212ac, 0x51f72f93, 0xd51902c1, 0x122b4e6c, 0x4e453d42, 0x890ec80a, 0x12fe0273,
     0x1ff179bd, 0x49958341, 0x2c675edb, 0x961d5af3, 0x8371fbed, 0x62a41e58, 0x910c4d35, 0x150c9bc5]
  const X16: State :=
    [0x05f77edb, 0x2d69be9d, 0x7d1d07f1, 0x52c2a8a5, 0xf958d795, 0xa414a18e, 0x7da7bbc6, 0xbb7ada4b,
     0x8f51205f, 0x408ce6d7, 0x7056fbe1, 0xea73ac90, 0x32fb0c0c, 0x4301a051, 0xdadeed4e, 0x0bf30f32]
  const X17: State :=
    [0x52ea4779, 0x0f0bea7c, 0x74c8a1e6, 0x04bedf24, 0xe0988de9, 0xf97bba27, 0x68e33d55, 0xc8e06981,
     0x8058c012, 0x727f7d25, 0xd0d21855, 0xf5109ce7, 0x968ad208, 0x717803cf, 0x3181fc5a, 0x7cdaea89]
  const X18: State :=
    [0x5b9965c8, 0x0c20bff1, 0x53ff2f85, 0xe3189b41, 0x73e3acd7, 0xb1ecf4b1, 0x3c45b2b8, 0x1922907b,
     0xe064613e, 0x5326e96d, 0x6c50bdc1, 0xe4491345, 0xf95e94f9, 0x5763545b, 0x4f4f9772, 0xb05574b0]
  const X19: State :=
    [0x633873f1, 0x80745cfe, 0xe32c301b, 0x7937b163, 0x55858a2b, 0xd865b381, 0xb4705e0b, 0xd774bf01,
     0xc5106a46, 0xc1d6633b, 0x458fad62, 0x7f526cd9, 0x5e45d2e5, 0x8db59060, 0x63ef1096, 0x3bfd0d26]
  const X20: State :=
    [0x9d8272ea, 0x1d7bd0dd, 0x3c86985b, 0x7867a724, 0x29f6bb61, 0xd93e0213, 0x37231d34, 0x6f2350df,
     0x3f3bef9e, 0x6bf986e0, 0x4656377c, 0x80f953ee, 0x97ba7c74, 0xfaaf4e43, 0x7f0a7653, 0xd67289b7]

  lemma XHalf1() ensures ColumnRound(X0) == X1 { Columns(X0, X1); }
  lemma XHalf2() ensures DiagonalRound(X1) == X2 { Diagonals(X1, X2); }
  lemma XHalf3() ensures ColumnRound(X2) == X3 { Columns(X2, X3); }
  lemma XHalf4() ensures DiagonalRound(X3) == X4 { Diagonals(X3, X4); }
  lemma XHalf5() ensures ColumnRound(X4) == X5 { Columns(X4, X5); }
  lemma XHalf6() ensures DiagonalRound(X5) == X6 { Diagonals(X5, X6); }
  lemma XHalf7() ensures ColumnRound(X6) == X7 { Columns(X6, X7); }
  lemma XHalf8() ensures DiagonalRound(X7) == X8 { Diagonals(X7, X8); }
  lemma XHalf9() ensures ColumnRound(X8) == X9 { Columns(X8, X9); }
  lemma XHalf10() ensures DiagonalRound(X9) == X10 { Diagonals(X9, X10); }
  lemma XHalf11() ensures ColumnRound(X10) == X11 { Columns(X10, X11); }
  lemma XHalf12() ensures DiagonalRound(X11) == X12 { Diagonals(X11, X12); }
  lemma XHalf13() ensures ColumnRound(X12) == X13 { Columns(X12, X13); }
  lemma XHalf14() ensures DiagonalRound(X13) == X14 { Diagonals(X13, X14); }
  lemma XHalf15() ensures ColumnRound(X14) == X15 { Columns(X14, X15); }
  lemma XHalf16() ensures DiagonalRound(X15) == X16 { Diagonals(X15, X16); }
  lemma XHalf17() ensures ColumnRound(X16) == X17 { Columns(X16, X17); }
  lemma XHalf18() ensures DiagonalRound(X17) == X18 { Diagonals(X17, X18); }
  lemma XHalf19() ensures ColumnRound(X18) == X19 { Columns(X18, X19); }
  lemma XHalf20() ensures DiagonalRound(X19) == X20 { Diagonals(X19, X20); }

  lemma XRounds()
    ensures DoubleRounds(X0, 10) == X20
  {
    hide DiagonalRound, ColumnRound;
    assert DoubleRounds(X0, 0) == X0;
    XHalf1(); XHalf2(); OneMore(X0, 0, X0, X1, X2);
    XHalf3(); XHalf4(); OneMore(X0, 1, X2, X3, X4);
    XHalf5(); XHalf6(); OneMore(X0, 2, X4, X5, X6);
    XHalf7(); XHalf8(); OneMore(X0, 3, X6, X7, X8);
    XHalf9(); XHalf10(); OneMore(X0, 4, X8, X9, X10);
    XHalf11(); XHalf12(); OneMore(X0, 5, X10, X11, X12);
    XHalf13(); XHalf14(); OneMore(X0, 6, X12, X13, X14);
    XHalf15(); XHalf16(); OneMore(X0, 7, X14, X15, X16);
    XHalf17(); XHalf18(); OneMore(X0, 8, X16, X17, X18);
    XHalf19(); XHalf20(); OneMore(X0, 9, X18, X19, X20);
  }

  // Blocks and bytes.

  predicate Adds(v: State, x: State, r: State) {
    && r[0] == v[0] + x[0] && r[1] == v[1] + x[1] && r[2] == v[2] + x[2] && r[3] == v[3] + x[3]
    && r[4] == v[4] + x[4] && r[5] == v[5] + x[5] && r[6] == v[6] + x[6] && r[7] == v[7] + x[7]
    && r[8] == v[8] + x[8] && r[9] == v[9] + x[9] && r[10] == v[10] + x[10] && r[11] == v[11] + x[11]
    && r[12] == v[12] + x[12] && r[13] == v[13] + x[13] && r[14] == v[14] + x[14] && r[15] == v[15] + x[15]
  }

  lemma BlockIs(x: State, v: State, r: State)
    requires x[..4] == SIGMA && DoubleRounds(x, 10) == v && Adds(v, x, r)
    ensures Block(x) == r
  {
    hide DoubleRounds;
    assert Keyed(x) == x;
    assert DOUBLE_ROUNDS == 10;
    assert Sum(v, x) == r;
  }

  /** Sixteen bytes are four little-endian words. */
  predicate Reads(b: seq<Byte>, w: seq<Word>) {
    && |b| == 16 && |w| == 4
    && LoadWord(b[0], b[1], b[2], b[3]) == w[0] && LoadWord(b[4], b[5], b[6], b[7]) == w[1]
    && LoadWord(b[8], b[9], b[10], b[11]) == w[2] && LoadWord(b[12], b[13], b[14], b[15]) == w[3]
  }

  lemma ReadsAt(b: seq<Byte>, w: seq<Word>, i: nat)
    requires Reads(b, w) && i < 4
    ensures LoadWord(b[4 * i], b[4 * i + 1], b[4 * i + 2], b[4 * i + 3]) == w[i]
  {
    hide LoadWord;
    assert i == 0 || i == 1 || i == 2 || i == 3;
  }

  /** A key of two rows. */
  lemma KeyReads(a: seq<Byte>, b: seq<Byte>, u: seq<Word>, v: seq<Word>)
    requires Reads(a, u) && Reads(b, v)
    ensures WordsAt(a + b, 0, 8) == u + v
  {
    hide LoadWord, Reads;
    SixteenBytes(a, u);
    SixteenBytes(b, v);
    forall i | 0 <= i < 8 ensures WordsAt(a + b, 0, 8)[i] == (u + v)[i] {
      if i < 4 {
        ReadsAt(a, u, i);
      } else {
        ReadsAt(b, v, i - 4);
      }
    }
  }

  lemma SixteenBytes(b: seq<Byte>, w: seq<Word>)
    requires Reads(b, w)
    ensures |b| == 16 && |w| == 4
  {
  }

  /** The bytes of four words. */
  lemma RowBytes(b: seq<Byte>, w: State, q: nat)
    requires q < 4 && Reads(b, w[4 * q..4 * q + 4])
    ensures |b| == 16 && forall k :: 0 <= k < 16 ==> StateByte(w, 16 * q + k) == b[k]
  {
    hide LoadWord, WordByte, StateByte, Reads;
    SixteenBytes(b, w[4 * q..4 * q + 4]);
    forall k | 0 <= k < 16 ensures StateByte(w, 16 * q + k) == b[k] {
      RowByte(b, w, q, k / 4, k % 4);
    }
  }

  lemma RowByte(b: seq<Byte>, w: State, q: nat, i: nat, j: nat)
    requires q < 4 && i < 4 && j < 4 && |b| == 16 && Reads(b, w[4 * q..4 * q + 4])
    ensures StateByte(w, 16 * q + (4 * i + j)) == b[4 * i + j]
  {
    hide LoadWord, WordByte, Reads;
    ReadsAt(b, w[4 * q..4 * q + 4], i);
    LoadedBytes(b[4 * i], b[4 * i + 1], b[4 * i + 2], b[4 * i + 3]);
    assert (16 * q + (4 * i + j)) / 4 == 4 * q + i && (16 * q + (4 * i + j)) % 4 == j;
    assert j == 0 || j == 1 || j == 2 || j == 3;
  }

  /** A block that spells four rows is that stretch of the keystream. */
  lemma SpanIs(start: State, n: nat, w: State, a: seq<Byte>, b: seq<Byte>, c: seq<Byte>, d: seq<Byte>)
    requires Block(Advance(start, n)) == w
    requires Reads(a, w[0..4]) && Reads(b, w[4..8]) && Reads(c, w[8..12]) && Reads(d, w[12..16])
    ensures KeySpan(start, 64 * n, 64) == a + b + c + d
  {
    hide Block, Advance, StateByte, Reads;
    RowBytes(a, w, 0);
    RowBytes(b, w, 1);
    RowBytes(c, w, 2);
    RowBytes(d, w, 3);
    forall p | 0 <= p < 64 ensures KeySpan(start, 64 * n, 64)[p] == (a + b + c + d)[p] {
      assert (64 * n + p) / 64 == n && (64 * n + p) % 64 == p;
      assert KeyByte(start, 64 * n + p) == StateByte(w, p);
      assert p == 16 * (p / 16) + p % 16;
    }
  }

  // Section 2.4.2 of RFC 7539.

  const KEY0: seq<Byte> := [0x00, 0x01, 0x02, 0x03, 0x04, 0x05, 0x06, 0x07, 0x08, 0x09, 0x0a, 0x0b, 0x0c, 0x0d, 0x0e, 0x0f]
  const KEY1: seq<Byte> := [0x10, 0x11, 0x12, 0x13, 0x14, 0x15, 0x16, 0x17, 0x18, 0x19, 0x1a, 0x1b, 0x1c, 0x1d, 0x1e, 0x1f]
  const KEY: seq<Byte> := KEY0 + KEY1
  const NONCE: seq<Byte> := [0x00, 0x00, 0x00, 0x00, 0x00, 0x00, 0x00, 0x4a, 0x00, 0x00, 0x00, 0x00]
  const TEXT0: seq<Byte> := [0x4c, 0x61, 0x64, 0x69, 0x65, 0x73, 0x20, 0x61, 0x6e, 0x64, 0x20, 0x47, 0x65, 0x6e, 0x74, 0x6c]
  const TEXT1: seq<Byte> := [0x65, 0x6d, 0x65, 0x6e, 0x20, 0x6f, 0x66, 0x20, 0x74, 0x68, 0x65, 0x20, 0x63, 0x6c, 0x61, 0x73]
  const TEXT2: seq<Byte> := [0x73, 0x20, 0x6f, 0x66, 0x20, 0x27, 0x39, 0x39, 0x3a, 0x20, 0x49, 0x66, 0x20, 0x49, 0x20, 0x63]
  const TEXT3: seq<Byte> := [0x6f, 0x75, 0x6c, 0x64, 0x20, 0x6f, 0x66, 0x66, 0x65, 0x72, 0x20, 0x79, 0x6f, 0x75, 0x20, 0x6f]
  const TEXT: seq<Byte> := TEXT0 + TEXT1 + TEXT2 + TEXT3
  const STREAM0: seq<Byte> := [0x22, 0x4f, 0x51, 0xf3, 0x40, 0x1b, 0xd9, 0xe1, 0x2f, 0xde, 0x27, 0x6f, 0xb8, 0x63, 0x1d, 0xed]
  const STREAM1: seq<Byte> := [0x8c, 0x13, 0x1f, 0x82, 0x3d, 0x2c, 0x06, 0xe2, 0x7e, 0x4f, 0xca, 0xec, 0x9e, 0xf3, 0xcf, 0x78]
  const STREAM2: seq<Byte> := [0x8a, 0x3b, 0x0a, 0xa3, 0x72, 0x60, 0x0a, 0x92, 0xb5, 0x79, 0x74, 0xcd, 0xed, 0x2b, 0x93, 0x34]
  const STREAM3: seq<Byte> := [0x79, 0x4c, 0xba, 0x40, 0xc6, 0x3e, 0x34, 0xcd, 0xea, 0x21, 0x2c, 0x4c, 0xf0, 0x7d, 0x41, 0xb7]
  const STREAM: seq<Byte> := STREAM0 + STREAM1 + STREAM2 + STREAM3
  const CIPHERTEXT0: seq<Byte> := [0x6e, 0x2e, 0x35, 0x9a, 0x25, 0x68, 0xf9, 0x80, 0x41, 0xba, 0x07, 0x28, 0xdd, 0x0d, 0x69, 0x81]
  const CIPHERTEXT1: seq<Byte> := [0xe9, 0x7e, 0x7a, 0xec, 0x1d, 0x43, 0x60, 0xc2, 0x0a, 0x27, 0xaf, 0xcc, 0xfd, 0x9f, 0xae, 0x0b]
  const CIPHERTEXT2: seq<Byte> := [0xf9, 0x1b, 0x65, 0xc5, 0x52, 0x47, 0x33, 0xab, 0x8f, 0x59, 0x3d, 0xab, 0xcd, 0x62, 0xb3, 0x57]
  const CIPHERTEXT3: seq<Byte> := [0x16, 0x39, 0xd6, 0x24, 0xe6, 0x51, 0x52, 0xab, 0x8f, 0x53, 0x0c, 0x35, 0x9f, 0x08, 0x61, 0xd8]
  const CIPHERTEXT: seq<Byte> := CIPHERTEXT0 + CIPHERTEXT1 + CIPHERTEXT2 + CIPHERTEXT3
  const BLOCK: State :=
    [0xf3514f22, 0xe1d91b40, 0x6f27de2f, 0xed1d63b8, 0x821f138c, 0xe2062c3d, 0xecca4f7e, 0x78cff39e,
     0xa30a3b8a, 0x920a6072, 0xcd7479b5, 0x34932bed, 0x40ba4c79, 0xcd343ec6, 0x4c2c21ea, 0xb7417df0]

  lemma RfcKey()
    ensures WordsAt(KEY, 0, 8) == R0[4..12]
  {
    assert Reads(KEY0, R0[4..8]) && Reads(KEY1, R0[8..12]);
    hide Reads;
    KeyReads(KEY0, KEY1, R0[4..8], R0[8..12]);
    assert R0[4..12] == R0[4..8] + R0[8..12];
  }

  lemma RfcNonce()
    ensures WordsAt(NONCE, 0, 3) == R0[13..]
  {
    assert WordAt(NONCE, 0) == R0[13] && WordAt(NONCE, 4) == R0[14] && WordAt(NONCE, 8) == R0[15];
    hide WordAt;
  }

  lemma RfcStart()
    ensures FreshState(KEY, NONCE) == R0[12 := 0]
    ensures Advance(FreshState(KEY, NONCE), 1) == R0
  {
    RfcKey();
    RfcNonce();
    hide WordsAt;
    assert R0[..4] == SIGMA;
    assert FreshState(KEY, NONCE) == R0[12 := 0];
    CountFirst(R0[12 := 0]);
  }

  /** The counter after the first block. */
  lemma CountFirst(x: State)
    requires x[12] == 0
    ensures Advance(x, 1) == x[12 := 1]
  {
    hide Low, High, Join;
    assert Advance(x, 1) == CountUp(Advance(x, 0));
    CountUpWords(x);
  }

  /** Block 1 of the keystream. */
  lemma RfcStream()
    ensures KeySpan(FreshState(KEY, NONCE), 64, 64) == STREAM
  {
    RfcStart();
    hide FreshState, Advance;
    RRounds();
    RfcBlock();
    RfcBytes();
    SpanIs(FreshState(KEY, NONCE), 1, BLOCK, STREAM0, STREAM1, STREAM2, STREAM3);
  }

  lemma RfcBlock()
    requires DoubleRounds(R0, 10) == R20
    ensures Block(R0) == BLOCK
  {
    hide DoubleRounds, Block;
    BlockIs(R0, R20, BLOCK);
  }

  lemma RfcBytes()
    ensures Reads(STREAM0, BLOCK[0..4]) && Reads(STREAM1, BLOCK[4..8])
    ensures Reads(STREAM2, BLOCK[8..12]) && Reads(STREAM3, BLOCK[12..16])
  {
  }

  // XChaCha20.

  const XKEY0: seq<Byte> := [0x1b, 0x27, 0x55, 0x64, 0x73, 0xe9, 0x85, 0xd4, 0x62, 0xcd, 0x51, 0x19, 0x7a, 0x9a, 0x46, 0xc7]
  const XKEY1: seq<Byte> := [0x60, 0x09, 0x54, 0x9e, 0xac, 0x64, 0x74, 0xf2, 0x06, 0xc4, 0xee, 0x08, 0x44, 0xf6, 0x83, 0x89]
  const XKEY: seq<Byte> := XKEY0 + XKEY1
  const XNONCE0: seq<Byte> := [0x69, 0x69, 0x6e, 0xe9, 0x55, 0xb6, 0x2b, 0x73, 0xcd, 0x62, 0xbd, 0xa8, 0x75, 0xfc, 0x73, 0xd6]
  const XNONCE1: seq<Byte> := [0x82, 0x19, 0xe0, 0x03, 0x6b, 0x7a, 0x0b, 0x37]
  const XNONCE: seq<Byte> := XNONCE0 + XNONCE1
  const XSTREAM0: seq<Byte> := [0x4f, 0xeb, 0xf2, 0xfe, 0x4b, 0x35, 0x9c, 0x50, 0x8d, 0xc5, 0xe8, 0xb5, 0x98, 0x0c, 0x88, 0xe3]
  const XSTREAM1: seq<Byte> := [0x89, 0x46, 0xd8, 0xf1, 0x8f, 0x31, 0x34, 0x65, 0xc8, 0x62, 0xa0, 0x87, 0x82, 0x64, 0x82, 0x48]
  const XSTREAM2: seq<Byte> := [0x01, 0x8d, 0xac, 0xdc, 0xb9, 0x04, 0x17, 0x88, 0x53, 0xa4, 0x6d, 0xca, 0x3a, 0x0e, 0xaa, 0xee]
  const XSTREAM3: seq<Byte> := [0x74, 0x7c, 0xba, 0x97, 0x43, 0x4e, 0xaf, 0xfa, 0xd5, 0x8f, 0xea, 0x82, 0x22, 0x04, 0x7e, 0x0d]
  const XSTREAM: seq<Byte> := XSTREAM0 + XSTREAM1 + XSTREAM2 + XSTREAM3
  const XBLOCK: State :=
    [0xfef2eb4f, 0x509c354b, 0xb5e8c58d, 0xe3880c98, 0xf1d84689, 0x6534318f, 0x87a062c8, 0x48826482,
     0xdcac8d01, 0x881704b9, 0xca6da453, 0xeeaa0e3a, 0x97ba7c74, 0xfaaf4e43, 0x82ea8fd5, 0x0d7e0422]

  lemma XStart()
    ensures HStart(XKEY, XNONCE0) == H0
  {
    assert Reads(XKEY0, H0[4..8]) && Reads(XKEY1, H0[8..12]) && Reads(XNONCE0, H0[12..]);
    hide Reads;
    KeyReads(XKEY0, XKEY1, H0[4..8], H0[8..12]);
    NonceReads(XNONCE0, H0[12..]);
    hide WordsAt;
    assert H0[..4] == SIGMA;
    assert H0 == H0[..4] + (H0[4..8] + H0[8..12]) + H0[12..];
  }

  lemma NonceReads(b: seq<Byte>, w: seq<Word>)
    requires Reads(b, w)
    ensures WordsAt(b, 0, 4) == w
  {
    hide LoadWord;
    forall i | 0 <= i < 4 ensures WordsAt(b, 0, 4)[i] == w[i] {
      ReadsAt(b, w, i);
    }
  }

  lemma XSubkey()
    ensures HWords(XKEY, XNONCE0) == X0[4..12]
  {
    XStart();
    HRounds();
    hide DoubleRounds, HStart;
    assert DOUBLE_ROUNDS == 10;
    assert H20[..4] + H20[12..] == X0[4..12];
  }

  lemma XTail()
    ensures WordsAt(XNONCE1, 0, 2) == X0[14..]
  {
    assert WordAt(XNONCE1, 0) == X0[14] && WordAt(XNONCE1, 4) == X0[15];
    hide WordAt;
  }

  lemma XFresh()
    ensures FreshState(XKEY, XNONCE) == X0
  {
    XSubkey();
    XTail();
    hide HWords, WordAt, WordsAt;
    assert XNONCE[..16] == XNONCE0 && XNONCE[16..] == XNONCE1 by { SplitNonce(XNONCE0, XNONCE1); }
    hide XKEY0, XKEY1, XNONCE0, XNONCE1;
    assert Keyed8(X0[4..12], XNONCE1) == X0 by { XLayout(); }
  }

  lemma SplitNonce(a: seq<Byte>, b: seq<Byte>)
    ensures (a + b)[..|a|] == a && (a + b)[|a|..] == b
  {
  }

  lemma XLayout()
    requires WordsAt(XNONCE1, 0, 2) == X0[14..]
    ensures Keyed8(X0[4..12], XNONCE1) == X0
  {
    hide WordsAt;
    assert X0[..4] == SIGMA && X0[12..14] == [0, 0];
    assert X0 == X0[..4] + X0[4..12] + X0[12..14] + X0[14..];
  }

  lemma XStream()
    ensures KeySpan(FreshState(XKEY, XNONCE), 0, 64) == XSTREAM
  {
    XFresh();
    assert Advance(X0, 0) == X0;
    hide FreshState, Advance;
    XRounds();
    XBlock();
    XBytes();
    SpanIs(FreshState(XKEY, XNONCE), 0, XBLOCK, XSTREAM0, XSTREAM1, XSTREAM2, XSTREAM3);
  }

  lemma XBlock()
    requires DoubleRounds(X0, 10) == X20
    ensures Block(X0) == XBLOCK
  {
    hide DoubleRounds, Block;
    BlockIs(X0, X20, XBLOCK);
  }

  lemma XBytes()
    ensures Reads(XSTREAM0, XBLOCK[0..4]) && Reads(XSTREAM1, XBLOCK[4..8])
    ensures Reads(XSTREAM2, XBLOCK[8..12]) && Reads(XSTREAM3, XBLOCK[12..16])
  {
  }


  // The objects, with every block function.

  lemma OneCounter()
    ensures High(1) == 0 && CounterValue(1) == 1
  {
    assert Low(1) == 1 && High(1) == 0;
    assert Half(1) == 0 && LowBit(1) == 1;
    ValZero();
  }

  lemma Accepts(x: State, off: nat, n: nat, ietf: bool)
    requires off == 64 && n <= 64 && x[8] != 0xffff_ffff
    ensures !NeedsRefused(x, off, n, ietf)
  {
    hide Val;
    NotMax(x[8]);
  }

  /** c is the text a xored with the key bytes b. */
  predicate Xored(a: seq<Byte>, b: seq<Byte>, c: seq<Byte>) {
    |a| == |b| == |c| && forall i :: 0 <= i < |a| ==> XorByte(a[i], b[i]) == c[i]
  }

  lemma XorJoin(a: seq<Byte>, b: seq<Byte>, c: seq<Byte>, d: seq<Byte>, e: seq<Byte>, f: seq<Byte>)
    requires Xored(a, b, c) && Xored(d, e, f)
    ensures Xored(a + d, b + e, c + f)
  {
    hide XorByte;
  }

  /** The same for a row, byte by byte. */
  predicate XoredRow(a: seq<Byte>, b: seq<Byte>, c: seq<Byte>) {
    && |a| == 16 && |b| == 16 && |c| == 16
    && XorByte(a[0], b[0]) == c[0] && XorByte(a[1], b[1]) == c[1]
    && XorByte(a[2], b[2]) == c[2] && XorByte(a[3], b[3]) == c[3]
    && XorByte(a[4], b[4]) == c[4] && XorByte(a[5], b[5]) == c[5]
    && XorByte(a[6], b[6]) == c[6] && XorByte(a[7], b[7]) == c[7]
    && XorByte(a[8], b[8]) == c[8] && XorByte(a[9], b[9]) == c[9]
    && XorByte(a[10], b[10]) == c[10] && XorByte(a[11], b[11]) == c[11]
    && XorByte(a[12], b[12]) == c[12] && XorByte(a[13], b[13]) == c[13]
    && XorByte(a[14], b[14]) == c[14] && XorByte(a[15], b[15]) == c[15]
  }

  lemma RowXored(a: seq<Byte>, b: seq<Byte>, c: seq<Byte>)
    requires XoredRow(a, b, c)
    ensures Xored(a, b, c)
  {
    hide XorByte;
    forall i | 0 <= i < 16 ensures XorByte(a[i], b[i]) == c[i] {
      assert i < 4 || i < 8 || i < 12 || i < 16;
    }
  }

  lemma TextRow0() ensures XoredRow(TEXT0, STREAM0, CIPHERTEXT0) {}
  lemma TextRow1() ensures XoredRow(TEXT1, STREAM1, CIPHERTEXT1) {}
  lemma TextRow2() ensures XoredRow(TEXT2, STREAM2, CIPHERTEXT2) {}
  lemma TextRow3() ensures XoredRow(TEXT3, STREAM3, CIPHERTEXT3) {}

  lemma TextCoded()
    ensures Xored(TEXT, STREAM, CIPHERTEXT)
  {
    TextRow0(); TextRow1(); TextRow2(); TextRow3();
    hide Xored, XoredRow;
    RowXored(TEXT0, STREAM0, CIPHERTEXT0);
    RowXored(TEXT1, STREAM1, CIPHERTEXT1);
    RowXored(TEXT2, STREAM2, CIPHERTEXT2);
    RowXored(TEXT3, STREAM3, CIPHERTEXT3);
    XorJoin(TEXT0, STREAM0, CIPHERTEXT0, TEXT1, STREAM1, CIPHERTEXT1);
    XorJoin(TEXT0 + TEXT1, STREAM0 + STREAM1, CIPHERTEXT0 + CIPHERTEXT1, TEXT2, STREAM2, CIPHERTEXT2);
    XorJoin(TEXT0 + TEXT1 + TEXT2, STREAM0 + STREAM1 + STREAM2, CIPHERTEXT0 + CIPHERTEXT1 + CIPHERTEXT2,
            TEXT3, STREAM3, CIPHERTEXT3);
  }

  lemma CodedIs(out: seq<Byte>, b: seq<Byte>, key: seq<Byte>, want: seq<Byte>)
    requires |out| == |b| == |key| == 64 && Coded(out, 0, b, 64, key) && Xored(b, key, want)
    ensures out == want
  {
    hide XorByte;
  }

  lemma Sizes()
    ensures |KEY| == |XKEY| == 32 && |NONCE| == 12 && |XNONCE| == 24
    ensures |TEXT| == |STREAM| == |CIPHERTEXT| == |XSTREAM| == 64
    ensures WordAt(KEY, 16) != 0xffff_ffff
  {
  }

  /** Section 2.4.2: the first 64 bytes of its text, from block 1 on, in place. */
  method Rfc7539(e: Engine) returns (out: seq<Byte>)
    ensures out == CIPHERTEXT
  {
    Sizes();
    hide FreshState, HInput, DoubleRounds, WordAt, Advance, Val, XorByte, Tells, KeySpan, Stream, After, NeedsRefused, Xored;
    hide KEY, NONCE, TEXT, STREAM, CIPHERTEXT;
    var c := new Cipher(e);
    var r := c.ReKey(KEY, NONCE);
    KeyWord(c.state[..], KEY);
    OneCounter();
    hide High, Low, CounterValue;
    r := c.Seek(1);
    var data := new Byte[64](i requires 0 <= i < 64 => TEXT[i]);
    assert data[..] == TEXT && data[0..64] == TEXT;
    Accepts(c.state[..], c.off, 64, c.ietf);
    var panicked := c.XORKeyStream(data, 0, 64, data, 0, 64);
    RfcStream();
    TextCoded();
    out := data[..];
    CodedIs(out, TEXT, STREAM, CIPHERTEXT);
  }

  /** The XChaCha20 vector. */
  method XChaCha20(e: Engine) returns (out: seq<Byte>)
    ensures out == XSTREAM
  {
    Sizes();
    hide FreshState, HInput, DoubleRounds, WordAt, Advance, Val, XorByte, Tells, KeySpan, Stream, After, NeedsRefused;
    hide XKEY, XNONCE, XSTREAM;
    var c := new Cipher(e);
    var r := c.ReKey(XKEY, XNONCE);
    var data := new Byte[64](i => 0);
    NeverRefused(c.state[..], c.off, 64);
    var panicked := c.KeyStream(data, 0, 64);
    XStream();
    out := data[0..64];
  }

  lemma KeyWord(x: State, key: seq<Byte>)
    requires |key| == 32 && forall i :: 0 <= i < 8 ==> x[4 + i] == WordAt(key, 4 * i)
    ensures x[8] == WordAt(key, 16)
  {
    hide WordAt;
    assert x[4 + 4] == WordAt(key, 4 * 4);
  }

  lemma NeverRefused(x: State, off: nat, n: nat)
    requires off <= 64
    ensures !NeedsRefused(x, off, n, false)
  {
  }
}
