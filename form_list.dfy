/**
 * The literal list of IRS form file names the script walks (`ALL_FORMS`,
 * scripts/download-forms.py lines 33-192), in its order, and the set built
 * from it (`ALL_FORMS_SET`, line 205). The list is kept as a concatenation of
 * runs of consecutive source lines, so that facts about all 744 entries can
 * be proved a run at a time.
 */
module FormList {

  // lines 34-37
  const Run01: seq<string> :=
    [
      "f1000.pdf", "f1023ez.pdf", "f1024.pdf", "f1024a.pdf", "f1028.pdf",
      "f10301.pdf", "f1040.pdf", "f1040c.pdf", "f1040es.pdf", "f1040esn.pdf",
      "f1040lep.pdf", "f1040nr.pdf", "f1040nra.pdf", "f1040nrn.pdf", "f1040nro.pdf",
      "f1040nrp.pdf", "f1040nrs.pdf", "f1040s.pdf", "f1040s1.pdf", "f1040s1a.pdf"
    ]

  // lines 38-42
  const Run02: seq<string> :=
    [
      "f1040s2.pdf", "f1040s3.pdf", "f1040s8.pdf", "f1040sa.pdf", "f1040sb.pdf",
      "f1040sc.pdf", "f1040sd.pdf", "f1040se.pdf", "f1040sei.pdf", "f1040sep.pdf",
      "f1040sf.pdf", "f1040sh.pdf", "f1040sj.pdf", "f1040sr.pdf", "f1040ss.pdf",
      "f1040sse.pdf", "f1040v.pdf", "f1040x.pdf",
      "f1041.pdf", "f1041a.pdf", "f1041es.pdf", "f1041n.pdf", "f1041qft.pdf"
    ]

  // lines 43-49
  const Run03: seq<string> :=
    [
      "f1041sd.pdf", "f1041si.pdf", "f1041sj.pdf", "f1041sk1.pdf", "f1041t.pdf",
      "f1041v.pdf",
      "f1042.pdf", "f1042s.pdf", "f1042sq.pdf", "f1042t.pdf",
      "f1045.pdf",
      "f1065.pdf", "f1065sb1.pdf", "f1065sb2.pdf", "f1065sc.pdf", "f1065sd.pdf",
      "f1065sk1.pdf", "f1065sk2.pdf", "f1065sk3.pdf", "f1065sm3.pdf", "f1065x.pdf",
      "f1066.pdf", "f1066sq.pdf"
    ]

  // lines 50-56
  const Run04: seq<string> :=
    [
      "f1094b.pdf", "f1094c.pdf",
      "f1095a.pdf", "f1095b.pdf", "f1095c.pdf",
      "f1096.pdf",
      "f1097btc.pdf",
      "f1098.pdf", "f1098c.pdf", "f1098e.pdf", "f1098f.pdf", "f1098q.pdf", "f1098t.pdf",
      "f1099a.pdf", "f1099b--2025.pdf", "f1099c.pdf", "f1099cap.pdf",
      "f1099da.pdf", "f1099da--2025.pdf", "f1099div.pdf", "f1099g.pdf", "f1099h.pdf"
    ]

  // lines 57-61
  const Run05: seq<string> :=
    [
      "f1099int.pdf", "f1099k.pdf", "f1099ls.pdf", "f1099ltc.pdf", "f1099msc.pdf",
      "f1099nec.pdf", "f1099oid.pdf", "f1099ptr.pdf", "f1099q.pdf", "f1099qa.pdf",
      "f1099r.pdf", "f1099s.pdf", "f1099sa.pdf", "f1099sb.pdf",
      "f1116.pdf", "f1116sb.pdf", "f1116sc.pdf", "f1117.pdf", "f1118.pdf",
      "f1118s1.pdf", "f1118sj.pdf", "f1118sk.pdf", "f1118sl.pdf"
    ]

  // lines 62-66
  const Run06: seq<string> :=
    [
      "f1120.pdf", "f1120c.pdf", "f1120f.pdf", "f1120h.pdf", "f1120l.pdf",
      "f1120nd.pdf", "f1120pc.pdf", "f1120pol.pdf", "f1120rei.pdf", "f1120ric.pdf",
      "f1120s.pdf", "f1120sb.pdf", "f1120sd.pdf", "f1120sf.pdf", "f1120sg.pdf",
      "f1120sh.pdf", "f1120sk2.pdf", "f1120sk3.pdf", "f1120sm3.pdf", "f1120sn.pdf",
      "f1120so.pdf", "f1120utp.pdf", "f1120x.pdf"
    ]

  // lines 67-73
  const Run07: seq<string> :=
    [
      "f1122.pdf", "f1125a.pdf", "f1125e.pdf", "f1127.pdf", "f1128.pdf",
      "f1138.pdf", "f1139.pdf",
      "f11c.pdf",
      "f172.pdf",
      "f2032.pdf", "f2063.pdf", "f2106.pdf", "f2120.pdf", "f2159.pdf",
      "f2210.pdf", "f2210f.pdf", "f2220.pdf", "f2290.pdf", "f2350.pdf",
      "f2438.pdf", "f2439.pdf", "f2441.pdf", "f2553.pdf", "f2555.pdf"
    ]

  // lines 74-78
  const Run08: seq<string> :=
    [
      "f2587.pdf", "f2624.pdf", "f2678.pdf", "f2848.pdf",
      "f3115.pdf", "f3468.pdf", "f3491.pdf", "f3520.pdf", "f3520a.pdf",
      "f3800.pdf", "f3800a.pdf", "f3881.pdf", "f3881a.pdf", "f3903.pdf",
      "f3911.pdf", "f3921.pdf", "f3922.pdf", "f3949a.pdf",
      "f4029.pdf", "f4136.pdf", "f4136sa.pdf", "f4137.pdf", "f4219.pdf"
    ]

  // lines 79-82
  const Run09: seq<string> :=
    [
      "f4255.pdf", "f433a.pdf", "f433aoi.pdf", "f433b.pdf", "f433boi.pdf",
      "f433d.pdf", "f433f.pdf", "f433h.pdf", "f4361.pdf", "f4421.pdf",
      "f4422.pdf", "f4423.pdf", "f4461.pdf", "f4461a.pdf", "f4461b.pdf", "f4461c.pdf",
      "f4466.pdf", "f4506.pdf", "f4506a.pdf", "f4506b.pdf", "f4506c.pdf"
    ]

  // lines 83-86
  const Run10: seq<string> :=
    [
      "f4506f.pdf", "f4506t.pdf", "f4506tez.pdf", "f4547.pdf", "f4562.pdf",
      "f4563.pdf", "f461.pdf", "f4626.pdf", "f4626sa.pdf", "f4669.pdf", "f4670.pdf",
      "f4684.pdf", "f4720.pdf", "f4768.pdf", "f4797.pdf", "f4808.pdf", "f4810.pdf",
      "f4835.pdf", "f4852.pdf", "f4868.pdf", "f4876a.pdf", "f4952.pdf"
    ]

  // lines 87-91
  const Run11: seq<string> :=
    [
      "f4970.pdf", "f4972.pdf", "f4977.pdf",
      "f5074.pdf", "f5129.pdf", "f5213.pdf", "f5227.pdf", "f5300.pdf",
      "f5304sim.pdf", "f5305.pdf", "f5305a.pdf", "f5305ase.pdf", "f5305b.pdf",
      "f5305c.pdf", "f5305e.pdf", "f5305ea.pdf", "f5305r.pdf", "f5305ra.pdf",
      "f5305rb.pdf", "f5305s.pdf", "f5305sa.pdf", "f5305sep.pdf", "f5305sim.pdf"
    ]

  // lines 92-95
  const Run12: seq<string> :=
    [
      "f5306.pdf", "f5306a.pdf", "f5307.pdf", "f5308.pdf", "f5309.pdf", "f5310.pdf",
      "f5310a.pdf", "f5316.pdf", "f5329.pdf", "f5330.pdf", "f5405.pdf", "f5434.pdf",
      "f5434a.pdf", "f5452.pdf", "f5471.pdf", "f5471se.pdf", "f5471sg1.pdf",
      "f5471sh.pdf", "f5471sh1.pdf", "f5471si1.pdf", "f5471sj.pdf", "f5471sm.pdf"
    ]

  // lines 96-99
  const Run13: seq<string> :=
    [
      "f5471so.pdf", "f5471sp.pdf", "f5471sq.pdf", "f5471sr.pdf",
      "f5472.pdf", "f5495.pdf", "f5498.pdf", "f5498e.pdf", "f5498qa.pdf", "f5498sa.pdf",
      "f5500ez.pdf", "f5558.pdf", "f5578.pdf", "f56.pdf", "f5646.pdf", "f5695.pdf",
      "f56f.pdf", "f5713.pdf", "f5713sa.pdf", "f5713sb.pdf", "f5713sc.pdf"
    ]

  // lines 100-104
  const Run14: seq<string> :=
    [
      "f5735.pdf", "f5754.pdf", "f5768.pdf", "f5884.pdf", "f5884a.pdf",
      "f5884c.pdf", "f5884d.pdf",
      "f6069.pdf", "f6088.pdf", "f6112.pdf", "f6118.pdf", "f6197.pdf", "f6198.pdf",
      "f6251.pdf", "f6252.pdf", "f637.pdf", "f6478.pdf", "f6497.pdf", "f6524.pdf",
      "f656.pdf", "f656b.pdf", "f656l.pdf", "f656ppv.pdf", "f6627.pdf"
    ]

  // lines 105-109
  const Run15: seq<string> :=
    [
      "f6729c.pdf", "f6729d.pdf", "f673.pdf", "f6744.pdf", "f6765.pdf", "f6781.pdf",
      "f7004.pdf", "f7036.pdf",
      "f706.pdf", "f706a.pdf", "f706ce.pdf", "f706gsd.pdf", "f706gsd1.pdf",
      "f706gst.pdf", "f706na.pdf", "f706qdt.pdf", "f706sa.pdf", "f706sb.pdf",
      "f706sc.pdf", "f706sd.pdf", "f706se.pdf", "f706sf.pdf", "f706sg.pdf"
    ]

  // lines 110-114
  const Run16: seq<string> :=
    [
      "f706sh.pdf", "f706si.pdf", "f706sj.pdf", "f706sk.pdf", "f706sl.pdf",
      "f706sm.pdf", "f706so.pdf", "f706sq.pdf", "f706sr.pdf", "f706sr1.pdf",
      "f706st.pdf", "f706su.pdf", "f706sw.pdf",
      "f708.pdf", "f709.pdf", "f709na.pdf", "f712.pdf",
      "f720.pdf", "f7200.pdf", "f720cs.pdf", "f720to.pdf", "f720x.pdf"
    ]

  // lines 115-119
  const Run17: seq<string> :=
    [
      "f7203.pdf", "f7204.pdf", "f7205.pdf", "f7206.pdf", "f7207.pdf", "f7208.pdf",
      "f7210.pdf", "f7211.pdf", "f7213.pdf", "f7217.pdf", "f7218.pdf", "f7220.pdf",
      "f730.pdf",
      "f8023.pdf", "f8027.pdf", "f8027t.pdf", "f8038.pdf", "f8038b.pdf",
      "f8038cp.pdf", "f8038cpa.pdf", "f8038g.pdf", "f8038gc.pdf", "f8038r.pdf"
    ]

  // lines 120-123
  const Run18: seq<string> :=
    [
      "f8038t.pdf", "f8038tc.pdf", "f8050.pdf", "f8082.pdf", "f8233.pdf",
      "f8274.pdf", "f8275.pdf", "f8275r.pdf", "f8281.pdf", "f8282.pdf",
      "f8283.pdf", "f8283v.pdf", "f8288.pdf", "f8288a.pdf", "f8288b.pdf", "f8288c.pdf",
      "f8300.pdf", "f8302.pdf", "f8308.pdf", "f8316.pdf", "f8328.pdf", "f8329.pdf"
    ]

  // lines 124-127
  const Run19: seq<string> :=
    [
      "f8330.pdf", "f8332.pdf", "f8379.pdf", "f8396.pdf", "f8404.pdf", "f843.pdf",
      "f8453.pdf", "f8498.pdf", "f8508.pdf", "f8508i.pdf", "f851.pdf",
      "f8546.pdf", "f8554.pdf", "f8554ep.pdf", "f8582.pdf", "f8582cr.pdf",
      "f8586.pdf", "f8594.pdf", "f8596.pdf", "f8596a.pdf", "f8606.pdf"
    ]

  // lines 128-131
  const Run20: seq<string> :=
    [
      "f8609.pdf", "f8609a.pdf", "f8610.pdf", "f8610sa.pdf", "f8611.pdf",
      "f8612.pdf", "f8613.pdf", "f8615.pdf", "f8621.pdf", "f8621a.pdf",
      "f8653.pdf", "f8654.pdf", "f8655.pdf", "f8689.pdf", "f8691.pdf", "f8697.pdf",
      "f8703.pdf", "f8716.pdf", "f8717.pdf", "f8717a.pdf", "f8718.pdf", "f8725.pdf"
    ]

  // lines 132-135
  const Run21: seq<string> :=
    [
      "f872b.pdf", "f8752.pdf", "f8796a.pdf", "f8801.pdf", "f8802.pdf", "f8804.pdf",
      "f8804c.pdf", "f8804sa.pdf", "f8804w.pdf", "f8805.pdf", "f8806.pdf",
      "f8809.pdf", "f8809ex.pdf", "f8809i.pdf", "f8810.pdf", "f8811.pdf",
      "f8813.pdf", "f8814.pdf", "f8815.pdf", "f8818.pdf", "f8819.pdf", "f8820.pdf"
    ]

  // lines 136-139
  const Run22: seq<string> :=
    [
      "f8821.pdf", "f8821a.pdf", "f8822.pdf", "f8822b.pdf", "f8823.pdf", "f8824.pdf",
      "f8825.pdf", "f8825sa.pdf", "f8826.pdf", "f8827.pdf", "f8828.pdf", "f8829.pdf",
      "f8830.pdf", "f8831.pdf", "f8832.pdf", "f8833.pdf", "f8834.pdf", "f8835.pdf",
      "f8838.pdf", "f8838p.pdf", "f8839.pdf", "f8840.pdf", "f8842.pdf", "f8843.pdf"
    ]

  // lines 140-143
  const Run23: seq<string> :=
    [
      "f8844.pdf", "f8846.pdf", "f8848.pdf", "f8849.pdf", "f8849s1.pdf", "f8849s2.pdf",
      "f8849s3.pdf", "f8849s5.pdf", "f8849s6.pdf", "f8849s8.pdf", "f8851.pdf",
      "f8853.pdf", "f8854.pdf", "f8855.pdf", "f8857.pdf", "f8858.pdf", "f8858sm.pdf",
      "f8859.pdf", "f8862.pdf", "f8863.pdf", "f8864.pdf", "f8865.pdf", "f8865sg.pdf"
    ]

  // lines 144-147
  const Run24: seq<string> :=
    [
      "f8865sh.pdf", "f8865sk1.pdf", "f8865sk2.pdf", "f8865sk3.pdf", "f8865so.pdf",
      "f8866.pdf", "f8867.pdf", "f8868.pdf", "f8869.pdf", "f8870.pdf", "f8872.pdf",
      "f8873.pdf", "f8874.pdf", "f8874a.pdf", "f8874b.pdf", "f8875.pdf", "f8876.pdf",
      "f8878.pdf", "f8878a.pdf", "f8879.pdf", "f8879c.pdf", "f8879eg.pdf"
    ]

  // lines 148-151
  const Run25: seq<string> :=
    [
      "f8879f.pdf", "f8879s.pdf", "f8879ta.pdf", "f8879te.pdf", "f8879wh.pdf",
      "f8880.pdf", "f8881.pdf", "f8882.pdf", "f8883.pdf", "f8885.pdf", "f8886.pdf",
      "f8886t.pdf", "f8888.pdf", "f8889.pdf", "f8892.pdf", "f8896.pdf", "f8898.pdf",
      "f8899.pdf", "f8900.pdf", "f8902.pdf", "f8903.pdf", "f8904.pdf", "f8905.pdf"
    ]

  // lines 152-155
  const Run26: seq<string> :=
    [
      "f8906.pdf", "f8908.pdf", "f8911.pdf", "f8911sa.pdf", "f8912.pdf",
      "f8915b.pdf", "f8915d.pdf", "f8915f.pdf", "f8916.pdf", "f8916a.pdf",
      "f8917.pdf", "f8918.pdf", "f8919.pdf", "f8922.pdf", "f8924.pdf", "f8925.pdf",
      "f8927.pdf", "f8928.pdf", "f8932.pdf", "f8933.pdf", "f8933sa.pdf", "f8933sb.pdf"
    ]

  // lines 156-159
  const Run27: seq<string> :=
    [
      "f8933sc.pdf", "f8933sd.pdf", "f8933se.pdf", "f8933sf.pdf", "f8936.pdf",
      "f8936sa.pdf", "f8937.pdf", "f8938.pdf", "f8940.pdf", "f8941.pdf", "f8944.pdf",
      "f8945.pdf", "f8946.pdf", "f8947.pdf", "f8948.pdf", "f8949.pdf", "f8950.pdf",
      "f8951.pdf", "f8952.pdf", "f8955ssa.pdf", "f8957.pdf", "f8958.pdf"
    ]

  // lines 160-163
  const Run28: seq<string> :=
    [
      "f8959.pdf", "f8960.pdf", "f8962.pdf", "f8963.pdf", "f8966.pdf", "f8966c.pdf",
      "f8971.pdf", "f8971sa.pdf", "f8973.pdf", "f8974.pdf", "f8975.pdf", "f8975sa.pdf",
      "f8978.pdf", "f8978sa.pdf", "f8979.pdf", "f8980.pdf", "f8981.pdf", "f8982.pdf",
      "f8983.pdf", "f8984.pdf", "f8985.pdf", "f8985v.pdf", "f8986.pdf", "f8988.pdf"
    ]

  // lines 164-168
  const Run29: seq<string> :=
    [
      "f8989.pdf", "f8990.pdf", "f8991.pdf", "f8992.pdf", "f8992sa.pdf", "f8992sb.pdf",
      "f8993.pdf", "f8994.pdf", "f8995.pdf", "f8995a.pdf", "f8995aa.pdf",
      "f8995ab.pdf", "f8995ac.pdf", "f8995ad.pdf", "f8996.pdf", "f8997.pdf",
      "f9000.pdf",
      "f907.pdf", "f911.pdf", "f921.pdf", "f9210.pdf", "f9212.pdf", "f9214.pdf"
    ]

  // lines 169-173
  const Run30: seq<string> :=
    [
      "f921a.pdf", "f921i.pdf", "f921m.pdf", "f921p.pdf", "f9249.pdf", "f9250.pdf",
      "f926.pdf", "f928.pdf", "f9325.pdf", "f9368.pdf",
      "f940.pdf", "f940b.pdf", "f940sa.pdf", "f940sr.pdf",
      "f941.pdf", "f941sb.pdf", "f941sd.pdf", "f941sr.pdf", "f941x.pdf",
      "f943.pdf", "f943a.pdf", "f943sr.pdf", "f943x.pdf"
    ]

  // lines 174-179
  const Run31: seq<string> :=
    [
      "f944.pdf", "f944x.pdf",
      "f945.pdf", "f945a.pdf", "f945x.pdf",
      "f9423.pdf", "f9465.pdf", "f952.pdf", "f9549.pdf",
      "f965a.pdf", "f965b.pdf", "f965c.pdf", "f965d.pdf", "f965e.pdf",
      "f965sd.pdf", "f965sf.pdf", "f965sh.pdf",
      "f966.pdf", "f9661.pdf", "f970.pdf", "f972.pdf", "f973.pdf", "f976.pdf"
    ]

  // lines 180-184
  const Run32: seq<string> :=
    [
      "f9779.pdf", "f9783.pdf", "f982.pdf",
      "f990.pdf", "f990bl.pdf", "f990ez.pdf", "f990ezb.pdf", "f990pf.pdf",
      "f990sa.pdf", "f990sc.pdf", "f990sd.pdf", "f990se.pdf", "f990sf.pdf",
      "f990sg.pdf", "f990sh.pdf", "f990si.pdf", "f990sj.pdf", "f990sk.pdf",
      "f990sl.pdf", "f990sm.pdf", "f990sn.pdf", "f990so.pdf", "f990sr.pdf"
    ]

  // lines 185-191
  const Run33: seq<string> :=
    [
      "f990t.pdf", "f990tsa.pdf",
      "fw2.pdf", "fw2as.pdf", "fw2c.pdf", "fw2g.pdf", "fw2vi.pdf",
      "fw3.pdf", "fw3c.pdf", "fw3ss.pdf",
      "fw4.pdf", "fw4p.pdf", "fw4r.pdf", "fw4s.pdf", "fw4v.pdf",
      "fw7.pdf", "fw7a.pdf", "fw8ben.pdf", "fw8bene.pdf", "fw8eci.pdf",
      "fw8exp.pdf", "fw8imy.pdf", "fw9.pdf"
    ]

  const Part1: seq<string> :=
    Run01 + Run02 + Run03 + Run04 + Run05 + Run06 + Run07 + Run08 + Run09
  const Part2: seq<string> :=
    Run10 + Run11 + Run12 + Run13 + Run14 + Run15 + Run16 + Run17 + Run18
  const Part3: seq<string> :=
    Run19 + Run20 + Run21 + Run22 + Run23 + Run24 + Run25 + Run26 + Run27
  const Part4: seq<string> :=
    Run28 + Run29 + Run30 + Run31 + Run32 + Run33

  /** `ALL_FORMS`. */
  const AllForms: seq<string> :=
    Part1 + Part2 + Part3 + Part4

  /** `ALL_FORMS_SET`. */
  const AllFormsSet: set<string> := set f | f in AllForms

  // Facts about the whole list are proved a run at a time, then a part at a
  // time: a single proof about all 744 literals is too large for the solver.
  // The same staging gives the membership facts `Listed*` below.

  lemma Run01NoBare() ensures ".pdf" !in Run01 {}
  lemma Run02NoBare() ensures ".pdf" !in Run02 {}
  lemma Run03NoBare() ensures ".pdf" !in Run03 {}
  lemma Run04NoBare() ensures ".pdf" !in Run04 {}
  lemma Run05NoBare() ensures ".pdf" !in Run05 {}
  lemma Run06NoBare() ensures ".pdf" !in Run06 {}
  lemma Run07NoBare() ensures ".pdf" !in Run07 {}
  lemma Run08NoBare() ensures ".pdf" !in Run08 {}
  lemma Run09NoBare() ensures ".pdf" !in Run09 {}
  lemma Run10NoBare() ensures ".pdf" !in Run10 {}
  lemma Run11NoBare() ensures ".pdf" !in Run11 {}
  lemma Run12NoBare() ensures ".pdf" !in Run12 {}
  lemma Run13NoBare() ensures ".pdf" !in Run13 {}
  lemma Run14NoBare() ensures ".pdf" !in Run14 {}
  lemma Run15NoBare() ensures ".pdf" !in Run15 {}
  lemma Run16NoBare() ensures ".pdf" !in Run16 {}
  lemma Run17NoBare() ensures ".pdf" !in Run17 {}
  lemma Run18NoBare() ensures ".pdf" !in Run18 {}
  lemma Run19NoBare() ensures ".pdf" !in Run19 {}
  lemma Run20NoBare() ensures ".pdf" !in Run20 {}
  lemma Run21NoBare() ensures ".pdf" !in Run21 {}
  lemma Run22NoBare() ensures ".pdf" !in Run22 {}
  lemma Run23NoBare() ensures ".pdf" !in Run23 {}
  lemma Run24NoBare() ensures ".pdf" !in Run24 {}
  lemma Run25NoBare() ensures ".pdf" !in Run25 {}
  lemma Run26NoBare() ensures ".pdf" !in Run26 {}
  lemma Run27NoBare() ensures ".pdf" !in Run27 {}
  lemma Run28NoBare() ensures ".pdf" !in Run28 {}
  lemma Run29NoBare() ensures ".pdf" !in Run29 {}
  lemma Run30NoBare() ensures ".pdf" !in Run30 {}
  lemma Run31NoBare() ensures ".pdf" !in Run31 {}
  lemma Run32NoBare() ensures ".pdf" !in Run32 {}
  lemma Run33NoBare() ensures ".pdf" !in Run33 {}

  lemma Part1NoBare()
    ensures ".pdf" !in Part1
  {
    Run01NoBare();
    Run02NoBare();
    Run03NoBare();
    Run04NoBare();
    Run05NoBare();
    Run06NoBare();
    Run07NoBare();
    Run08NoBare();
    Run09NoBare();
  }

  lemma Part2NoBare()
    ensures ".pdf" !in Part2
  {
    Run10NoBare();
    Run11NoBare();
    Run12NoBare();
    Run13NoBare();
    Run14NoBare();
    Run15NoBare();
    Run16NoBare();
    Run17NoBare();
    Run18NoBare();
  }

  lemma Part3NoBare()
    ensures ".pdf" !in Part3
  {
    Run19NoBare();
    Run20NoBare();
    Run21NoBare();
    Run22NoBare();
    Run23NoBare();
    Run24NoBare();
    Run25NoBare();
    Run26NoBare();
    Run27NoBare();
  }

  lemma Part4NoBare()
    ensures ".pdf" !in Part4
  {
    Run28NoBare();
    Run29NoBare();
    Run30NoBare();
    Run31NoBare();
    Run32NoBare();
    Run33NoBare();
  }

  lemma NoBareInList()
    ensures ".pdf" !in AllForms
  {
    Part1NoBare();
    Part2NoBare();
    Part3NoBare();
    Part4NoBare();
  }

  /** No entry is the bare extension, so an empty root never names a listed form. */
  lemma NoBareExtension()
    ensures ".pdf" !in AllFormsSet
  {
    NoBareInList();
  }

  lemma Run01HasF1040() ensures "f1040.pdf" in Run01 { assert Run01[6] == "f1040.pdf"; }
  lemma Part1HasF1040() ensures "f1040.pdf" in Part1 { Run01HasF1040(); }
  lemma ListedF1040() ensures "f1040.pdf" in AllForms { Part1HasF1040(); }

  lemma Run33HasFW4P() ensures "fw4p.pdf" in Run33 { assert Run33[11] == "fw4p.pdf"; }
  lemma Part4HasFW4P() ensures "fw4p.pdf" in Part4 { Run33HasFW4P(); }
  lemma ListedFW4P() ensures "fw4p.pdf" in AllForms { Part4HasFW4P(); }

  lemma Run06HasF1120SO() ensures "f1120so.pdf" in Run06 { assert Run06[20] == "f1120so.pdf"; }
  lemma Part1HasF1120SO() ensures "f1120so.pdf" in Part1 { Run06HasF1120SO(); }
  lemma ListedF1120SO() ensures "f1120so.pdf" in AllForms { Part1HasF1120SO(); }

  lemma Run13HasF5471SP() ensures "f5471sp.pdf" in Run13 { assert Run13[1] == "f5471sp.pdf"; }
  lemma Part2HasF5471SP() ensures "f5471sp.pdf" in Part2 { Run13HasF5471SP(); }
  lemma ListedF5471SP() ensures "f5471sp.pdf" in AllForms { Part2HasF5471SP(); }

  /** Entries the examples elsewhere rely on. */
  lemma ListedExamples()
    ensures "f1040.pdf" in AllForms && "fw4p.pdf" in AllForms
    ensures "f1120so.pdf" in AllForms && "f5471sp.pdf" in AllForms
  {
    ListedF1040();
    ListedFW4P();
    ListedF1120SO();
    ListedF5471SP();
  }
}
