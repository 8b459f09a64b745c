/** The recogniser's class table (`SIGN_DICT`), its accent-free twin (`SIGN_DICT_NO_ACCENT`)
    and the inverse built from it (`SIGN_TO_INDEX`). */
module SignDict {

  /** Number of classes of the recogniser: keys 0 through 102. */
  const ClassCount: nat := 103

  /** The class the recogniser reports by default and below its confidence threshold. */
  const UnknownClass: int := 102

  /** `SIGN_DICT[k]` for a key of the table; the empty string for any other integer. */
  function SignAt(k: int): string {
    if k < 0 then ""
    else if k < 29 then (
      match k
      case 0 => "A"
      case 1 => "Ă"
      case 2 => "Â"
      case 3 => "B"
      case 4 => "C"
      case 5 => "D"
      case 6 => "Đ"
      case 7 => "E"
      case 8 => "Ê"
      case 9 => "G"
      case 10 => "H"
      case 11 => "I"
      case 12 => "K"
      case 13 => "L"
      case 14 => "M"
      case 15 => "N"
      case 16 => "O"
      case 17 => "Ô"
      case 18 => "Ơ"
      case 19 => "P"
      case 20 => "Q"
      case 21 => "R"
      case 22 => "S"
      case 23 => "T"
      case 24 => "U"
      case 25 => "Ư"
      case 26 => "V"
      case 27 => "X"
      case 28 => "Y"
      case _ => "")
    else if k < 51 then (
      match k
      case 29 => "Số 1"
      case 30 => "Số 2"
      case 31 => "Số 3"
      case 32 => "Số 4"
      case 33 => "Số 5"
      case 34 => "Số 6"
      case 35 => "Số 7"
      case 36 => "Số 8"
      case 37 => "Số 9"
      case 38 => "Số 10"
      case 39 => "Thời gian"
      case 40 => "Hỏi giờ"
      case 41 => "Ngày"
      case 42 => "Tháng"
      case 43 => "Năm"
      case 44 => "Hôm nay"
      case 45 => "Hôm qua"
      case 46 => "Buổi sáng"
      case 47 => "Buổi trưa"
      case 48 => "Buổi chiều"
      case 49 => "Buổi tối"
      case 50 => "Đêm"
      case _ => "")
    else if k < 67 then (
      match k
      case 51 => "Tôi"
      case 52 => "Chào"
      case 53 => "Xin lỗi"
      case 54 => "Xin phép"
      case 55 => "Vui"
      case 56 => "Buồn"
      case 57 => "Mệt"
      case 58 => "Khỏe"
      case 59 => "Yếu"
      case 60 => "Bạn"
      case 61 => "Tên là gì"
      case 62 => "Tuổi"
      case 63 => "Thế nào"
      case 64 => "Bao nhiêu"
      case 65 => "Ở đâu"
      case 66 => "Làm gì"
      case _ => "")
    else if k < 80 then (
      match k
      case 67 => "Đi"
      case 68 => "Đứng"
      case 69 => "Ngồi"
      case 70 => "Nằm"
      case 71 => "Chạy"
      case 72 => "Nhảy"
      case 73 => "Ngủ"
      case 74 => "Đi vệ sinh"
      case 75 => "Ăn"
      case 76 => "Uống"
      case 77 => "Tắm"
      case 78 => "Khóc"
      case 79 => "Cười"
      case _ => "")
    else if k < 95 then (
      match k
      case 80 => "Gia đình"
      case 81 => "Ông"
      case 82 => "Bà"
      case 83 => "Bố"
      case 84 => "Mẹ"
      case 85 => "Em trai"
      case 86 => "Em gái"
      case 87 => "Con trai"
      case 88 => "Con gái"
      case 89 => "Vợ"
      case 90 => "Chồng"
      case 91 => "Anh trai"
      case 92 => "Chị gái"
      case 93 => "Em út"
      case 94 => "Yêu"
      case _ => "")
    else if k < 102 then (
      match k
      case 95 => "Cô giáo"
      case 96 => "Công nhân"
      case 97 => "Nông dân"
      case 98 => "Bác sĩ"
      case 99 => "Y tá"
      case 100 => "Công an"
      case 101 => "Bộ đội"
      case _ => "")
    else if k == 102 then "UNKNOWN"
    else ""
  }

  /** `SIGN_DICT_NO_ACCENT[k]` for a key of the table; the empty string for any other integer. */
  function NoAccentAt(k: int): string {
    if k < 0 then ""
    else if k < 29 then (
      match k
      case 0 => "A"
      case 1 => "A1"
      case 2 => "A2"
      case 3 => "B"
      case 4 => "C"
      case 5 => "D"
      case 6 => "D1"
      case 7 => "E"
      case 8 => "E1"
      case 9 => "G"
      case 10 => "H"
      case 11 => "I"
      case 12 => "K"
      case 13 => "L"
      case 14 => "M"
      case 15 => "N"
      case 16 => "O"
      case 17 => "O1"
      case 18 => "O2"
      case 19 => "P"
      case 20 => "Q"
      case 21 => "R"
      case 22 => "S"
      case 23 => "T"
      case 24 => "U"
      case 25 => "U1"
      case 26 => "V"
      case 27 => "X"
      case 28 => "Y"
      case _ => "")
    else if k < 51 then (
      match k
      case 29 => "So 1"
      case 30 => "So 2"
      case 31 => "So 3"
      case 32 => "So 4"
      case 33 => "So 5"
      case 34 => "So 6"
      case 35 => "So 7"
      case 36 => "So 8"
      case 37 => "So 9"
      case 38 => "So 10"
      case 39 => "Thoi gian"
      case 40 => "Hoi gio"
      case 41 => "Ngay"
      case 42 => "Thang"
      case 43 => "Nam"
      case 44 => "Hom nay"
      case 45 => "Hom qua"
      case 46 => "Buoi sang"
      case 47 => "Buoi trua"
      case 48 => "Buoi chieu"
      case 49 => "Buoi toi"
      case 50 => "Dem"
      case _ => "")
    else if k < 67 then (
      match k
      case 51 => "Toi"
      case 52 => "Chao"
      case 53 => "Xin loi"
      case 54 => "Xin phep"
      case 55 => "Vui"
      case 56 => "Buon"
      case 57 => "Met"
      case 58 => "Khoe"
      case 59 => "Yeu"
      case 60 => "Ban"
      case 61 => "Ten la gi"
      case 62 => "Tuoi"
      case 63 => "The nao"
      case 64 => "Bao nhieu"
      case 65 => "O dau"
      case 66 => "Lam gi"
      case _ => "")
    else if k < 80 then (
      match k
      case 67 => "Di"
      case 68 => "Dung"
      case 69 => "Ngoi"
      case 70 => "Nam"
      case 71 => "Chay"
      case 72 => "Nhay"
      case 73 => "Ngu"
      case 74 => "Di ve sinh"
      case 75 => "An"
      case 76 => "Uong"
      case 77 => "Tam"
      case 78 => "Khoc"
      case 79 => "Cuoi"
      case _ => "")
    else if k < 95 then (
      match k
      case 80 => "Gia dinh"
      case 81 => "Ong"
      case 82 => "Ba"
      case 83 => "Bo"
      case 84 => "Me"
      case 85 => "Em trai"
      case 86 => "Em gai"
      case 87 => "Con trai"
      case 88 => "Con gai"
      case 89 => "Vo"
      case 90 => "Chong"
      case 91 => "Anh trai"
      case 92 => "Chi gai"
      case 93 => "Em ut"
      case 94 => "Yeu"
      case _ => "")
    else if k < 102 then (
      match k
      case 95 => "Co giao"
      case 96 => "Cong nhan"
      case 97 => "Nong dan"
      case 98 => "Bac si"
      case 99 => "Y ta"
      case 100 => "Cong an"
      case 101 => "Bo doi"
      case _ => "")
    else if k == 102 then "UNKNOWN"
    else ""
  }

  /** A dict display with keys 0 through n - 1, inserted in that order. */
  function Table(table: int -> string, n: nat): (m: map<int, string>)
    ensures forall k :: k in m <==> 0 <= k < n
    ensures forall k | k in m :: m[k] == table(k)
    ensures |m| == n
  {
    if n == 0 then map[]
    else
      var prev := Table(table, n - 1);
      assert n - 1 !in prev;
      prev[n - 1 := table(n - 1)]
  }

  /** `SIGN_DICT` */
  function SignTable(): map<int, string> {
    Table(SignAt, ClassCount)
  }

  /** `SIGN_DICT_NO_ACCENT` */
  function NoAccentTable(): map<int, string> {
    Table(NoAccentAt, ClassCount)
  }

  /** `{v: k for k, v in table.items()}` for a table with keys 0 through n - 1 inserted in order:
      a later key overwrites an earlier one that has the same value. */
  function Inverse<V>(table: int -> V, n: nat): map<V, int> {
    if n == 0 then map[] else Inverse(table, n - 1)[table(n - 1) := n - 1]
  }

  /** `SIGN_TO_INDEX` */
  function SignToIndex(): map<string, int> {
    Inverse(SignAt, ClassCount)
  }

  /** Every entry of the inverse sends a value back to a key, among the first n, that holds it. */
  lemma {:induction false} InverseEntries<V>(table: int -> V, n: nat)
    ensures forall v | v in Inverse(table, n) :: 0 <= Inverse(table, n)[v] < n && table(Inverse(table, n)[v]) == v
  {
    if n > 0 { InverseEntries(table, n - 1); }
  }

  /** Every value of the first n keys is in the inverse, which keeps the last key holding it. */
  lemma {:induction false} InverseKeepsLast<V>(table: int -> V, n: nat)
    ensures forall k | 0 <= k < n :: table(k) in Inverse(table, n) && Inverse(table, n)[table(k)] >= k
  {
    if n > 0 { InverseKeepsLast(table, n - 1); }
  }

  predicate Injective<V(==)>(table: int -> V, n: nat) {
    forall i, j | 0 <= i < j < n :: table(i) != table(j)
  }

  /** For a table without repeated values the inverse gives every key back, and has one entry per key. */
  lemma {:induction false} InverseOfInjective<V>(table: int -> V, n: nat)
    requires Injective(table, n)
    ensures forall k | 0 <= k < n :: table(k) in Inverse(table, n) && Inverse(table, n)[table(k)] == k
    ensures |Inverse(table, n)| == n
  {
    if n > 0 {
      InverseOfInjective(table, n - 1);
      LastValueFresh(table, n);
      ExtendWithFreshValue(Inverse(table, n - 1), table, n - 1);
    }
  }

  /** Without repeats, the value of key n - 1 is not yet in the inverse of the keys before it. */
  lemma LastValueFresh<V>(table: int -> V, n: nat)
    requires 0 < n && Injective(table, n)
    ensures table(n - 1) !in Inverse(table, n - 1)
  {
    InverseEntries(table, n - 1);
  }

  /** Adding a value not yet in an inverse of the first m keys gives an inverse of the first m + 1. */
  lemma ExtendWithFreshValue<V>(prev: map<V, int>, table: int -> V, m: nat)
    requires forall k | 0 <= k < m :: table(k) in prev && prev[table(k)] == k
    requires |prev| == m && table(m) !in prev
    ensures forall k | 0 <= k <= m :: table(k) in prev[table(m) := m] && prev[table(m) := m][table(k)] == k
    ensures |prev[table(m) := m]| == m + 1
  {
  }

  /** When two keys share a value, the inverse keeps the later one, so the earlier key does not round-trip. */
  lemma RepeatedValueLosesEarlierKey<V>(table: int -> V, n: nat, i: int, j: int)
    requires 0 <= i < j < n && table(i) == table(j)
    ensures table(i) in Inverse(table, n) && Inverse(table, n)[table(i)] != i
  {
    InverseKeepsLast(table, n);
  }

  /** A fingerprint of a label that differs between any two labels of `SIGN_DICT`;
      it exists only to prove the labels pairwise distinct. */
  function Fingerprint(v: string): int {
    if |v| == 0 then 0
    else |v| + 16 * (v[0] as int + 8192 * (v[|v| - 1] as int + 8192 * (if |v| > 1 then v[1] else v[0]) as int))
  }

  /** The class whose label has fingerprint `f`, or -1. */
  function ClassOfFingerprint(f: int): int {
    if f < 119199106104 then
      if f < 104168293417 then
        if f < 82688214225 then
          if f < 74097230929 then
            if f < 70875612193 then
              if f < 34389230996 then
                if f == 34375200229 then 65 else -1
              else
                if f < 69801739281 then
                  if f == 34389230996 then 99 else -1
                else
                  if f == 69801739281 then 0 else -1
            else
              if f < 71949485105 then
                if f == 70875612193 then 3 else -1
              else
                if f < 73023358017 then
                  if f == 71949485105 then 4 else -1
                else
                  if f == 73023358017 then 5 else -1
          else
            if f < 78392722577 then
              if f < 76244976753 then
                if f == 74097230929 then 7 else -1
              else
                if f < 77318849665 then
                  if f == 76244976753 then 9 else -1
                else
                  if f == 77318849665 then 10 else -1
            else
              if f < 80540468401 then
                if f == 78392722577 then 11 else -1
              else
                if f < 81614341313 then
                  if f == 80540468401 then 12 else -1
                else
                  if f == 81614341313 then 13 else -1
        else
          if f < 88057578785 then
            if f < 84835960049 then
              if f < 83762087137 then
                if f == 82688214225 then 14 else -1
              else
                if f < 83762087255 then
                  if f == 83762087137 then 15 else -1
                else
                  if f == 83762087255 then 102 else -1
            else
              if f < 85909832961 then
                if f == 84835960049 then 16 else -1
              else
                if f < 86983705873 then
                  if f == 85909832961 then 19 else -1
                else
                  if f == 86983705873 then 20 else -1
          else
            if f < 91279197521 then
              if f < 89131451697 then
                if f == 88057578785 then 21 else -1
              else
                if f < 90205324609 then
                  if f == 89131451697 then 22 else -1
                else
                  if f == 90205324609 then 23 else -1
            else
              if f < 94500816257 then
                if f < 92353070433 then
                  if f == 91279197521 then 24 else -1
                else
                  if f == 92353070433 then 26 else -1
              else
                if f < 95574689169 then
                  if f == 94500816257 then 27 else -1
                else
                  if f == 95574689169 then 28 else -1
      else
        if f < 111685010660 then
          if f < 111682651189 then
            if f < 111632319715 then
              if f < 110609171684 then
                if f == 104168293417 then 64 else -1
              else
                if f < 110611268836 then
                  if f == 110609171684 then 69 else -1
                else
                  if f == 110611268836 then 41 else -1
            else
              if f < 111682127028 then
                if f == 111632319715 then 73 else -1
              else
                if f < 111682389172 then
                  if f == 111682127028 then 78 else -1
                else
                  if f == 111682389172 then 58 else -1
          else
            if f < 111683568969 then
              if f < 111682651461 then
                if f == 111682651189 then 90 else -1
              else
                if f < 111682913335 then
                  if f == 111682651461 then 42 else -1
                else
                  if f == 111682913335 then 92 else -1
            else
              if f < 111683700039 then
                if f < 111683699764 then
                  if f == 111683568969 then 39 else -1
                else
                  if f == 111683699764 then 52 else -1
              else
                if f < 111685010484 then
                  if f == 111683700039 then 63 else -1
                else
                  if f == 111685010484 then 71 else -1
        else
          if f < 117051622486 then
            if f < 112756655495 then
              if f < 112756524152 then
                if f == 111685010660 then 72 else -1
              else
                if f < 112756527370 then
                  if f == 112756524152 then 80 else -1
                else
                  if f == 112756527370 then 74 else -1
            else
              if f < 112756658434 then
                if f == 112756655495 then 53 else -1
              else
                if f < 112757573000 then
                  if f == 112756658434 then 67 else -1
                else
                  if f == 112757573000 then 54 else -1
          else
            if f < 118125104451 then
              if f < 117051622487 then
                if f == 117051622486 then 86 else -1
              else
                if f < 117053064277 then
                  if f == 117051622487 then 85 else -1
                else
                  if f == 117053064277 then 93 else -1
            else
              if f < 118126022690 then
                if f < 118125364248 then
                  if f == 118125104451 then 81 else -1
                else
                  if f == 118125364248 then 91 else -1
              else
                if f < 119199106103 then
                  if f == 118126022690 then 75 else -1
                else
                  if f == 119199106103 then 88 else -1
    else
      if f < 292093432065 then
        if f < 241630839846 then
          if f < 125642212388 then
            if f < 125641557032 then
              if f < 125640508457 then
                if f == 119199106104 then 87 else -1
              else
                if f < 125641294889 then
                  if f == 125640508457 then 47 else -1
                else
                  if f == 125641294889 then 46 else -1
            else
              if f < 125641557316 then
                if f == 125641557032 then 49 else -1
              else
                if f < 125641557347 then
                  if f == 125641557316 then 62 else -1
                else
                  if f == 125641557347 then 55 else -1
          else
            if f < 216922328225 then
              if f < 125643129898 then
                if f == 125642212388 then 56 else -1
              else
                if f < 208331344929 then
                  if f == 125643129898 then 48 else -1
                else
                  if f == 208331344929 then 2 else -1
            else
              if f < 240547529762 then
                if f < 227661057345 then
                  if f == 216922328225 then 8 else -1
                else
                  if f == 227661057345 then 17 else -1
              else
                if f < 240549102790 then
                  if f == 240547529762 then 82 else -1
                else
                  if f == 240549102790 then 66 else -1
        else
          if f < 262007424055 then
            if f < 251286521161 then
              if f < 251269878019 then
                if f == 241630839846 then 98 else -1
              else
                if f < 251270923667 then
                  if f == 251269878019 then 50 else -1
                else
                  if f == 251270923667 then 94 else -1
            else
              if f < 262005720199 then
                if f == 251286521161 then 61 else -1
              else
                if f < 262006768963 then
                  if f == 262005720199 then 45 else -1
                else
                  if f == 262006768963 then 51 else -1
          else
            if f < 262007555127 then
              if f < 262007424057 then
                if f == 262007424055 then 100 else -1
              else
                if f < 262007424232 then
                  if f == 262007424057 then 96 else -1
                else
                  if f == 262007424232 then 97 else -1
            else
              if f < 277059211297 then
                if f < 262008865927 then
                  if f == 262007555127 then 95 else -1
                else
                  if f == 262008865927 then 44 else -1
              else
                if f < 278113420515 then
                  if f == 277059211297 then 1 else -1
                else
                  if f == 278113420515 then 43 else -1
      else
        if f < 8470755804468 then
          if f < 8436403799267 then
            if f < 463870231604 then
              if f < 446731131393 then
                if f == 292093432065 then 6 else -1
              else
                if f < 462839225073 then
                  if f == 446731131393 then 18 else -1
                else
                  if f == 462839225073 then 25 else -1
            else
              if f < 8419224060963 then
                if f == 463870231604 then 79 else -1
              else
                if f < 8434256315715 then
                  if f == 8419224060963 then 60 else -1
                else
                  if f == 8434256315715 then 77 else -1
          else
            if f < 8460027036883 then
              if f < 8446010328274 then
                if f == 8436403799267 then 70 else -1
              else
                if f < 8451437233555 then
                  if f == 8446010328274 then 84 else -1
                else
                  if f == 8451437233555 then 59 else -1
            else
              if f < 8470755542325 then
                if f < 8469637366919 then
                  if f == 8460027036883 then 57 else -1
                else
                  if f == 8469637366919 then 40 else -1
              else
                if f < 8470755673396 then
                  if f == 8470755542325 then 38 else -1
                else
                  if f == 8470755673396 then 29 else -1
        else
          if f < 8470756590900 then
            if f < 8470756197684 then
              if f < 8470755935540 then
                if f == 8470755804468 then 30 else -1
              else
                if f < 8470756066612 then
                  if f == 8470755935540 then 31 else -1
                else
                  if f == 8470756066612 then 32 else -1
            else
              if f < 8470756328756 then
                if f == 8470756197684 then 33 else -1
              else
                if f < 8470756459828 then
                  if f == 8470756328756 then 34 else -1
                else
                  if f == 8470756459828 then 35 else -1
          else
            if f < 8471783277602 then
              if f < 8470756721972 then
                if f == 8470756590900 then 36 else -1
              else
                if f < 8470762751316 then
                  if f == 8470756721972 then 37 else -1
                else
                  if f == 8470762751316 then 76 else -1
            else
              if f < 8491112990050 then
                if f < 8479352947750 then
                  if f == 8471783277602 then 83 else -1
                else
                  if f == 8479352947750 then 101 else -1
              else
                if f < 8496532558084 then
                  if f == 8491112990050 then 89 else -1
                else
                  if f == 8496532558084 then 68 else -1
  }

  lemma FingerprintsFrom0()
    ensures forall k | 0 <= k < 4 :: ClassOfFingerprint(Fingerprint(SignAt(k))) == k
  {
    forall k | 0 <= k < 4 ensures ClassOfFingerprint(Fingerprint(SignAt(k))) == k {
      if k == 0 { assert ClassOfFingerprint(Fingerprint(SignAt(0))) == 0; }
      else if k == 1 { assert ClassOfFingerprint(Fingerprint(SignAt(1))) == 1; }
      else if k == 2 { assert ClassOfFingerprint(Fingerprint(SignAt(2))) == 2; }
      else { assert k == 3; assert ClassOfFingerprint(Fingerprint(SignAt(3))) == 3; }
    }
  }

  lemma FingerprintsFrom4()
    ensures forall k | 4 <= k < 8 :: ClassOfFingerprint(Fingerprint(SignAt(k))) == k
  {
    forall k | 4 <= k < 8 ensures ClassOfFingerprint(Fingerprint(SignAt(k))) == k {
      if k == 4 { assert ClassOfFingerprint(Fingerprint(SignAt(4))) == 4; }
      else if k == 5 { assert ClassOfFingerprint(Fingerprint(SignAt(5))) == 5; }
      else if k == 6 { assert ClassOfFingerprint(Fingerprint(SignAt(6))) == 6; }
      else { assert k == 7; assert ClassOfFingerprint(Fingerprint(SignAt(7))) == 7; }
    }
  }

  lemma FingerprintsFrom8()
    ensures forall k | 8 <= k < 12 :: ClassOfFingerprint(Fingerprint(SignAt(k))) == k
  {
    forall k | 8 <= k < 12 ensures ClassOfFingerprint(Fingerprint(SignAt(k))) == k {
      if k == 8 { assert ClassOfFingerprint(Fingerprint(SignAt(8))) == 8; }
      else if k == 9 { assert ClassOfFingerprint(Fingerprint(SignAt(9))) == 9; }
      else if k == 10 { assert ClassOfFingerprint(Fingerprint(SignAt(10))) == 10; }
      else { assert k == 11; assert ClassOfFingerprint(Fingerprint(SignAt(11))) == 11; }
    }
  }

  lemma FingerprintsFrom12()
    ensures forall k | 12 <= k < 16 :: ClassOfFingerprint(Fingerprint(SignAt(k))) == k
  {
    forall k | 12 <= k < 16 ensures ClassOfFingerprint(Fingerprint(SignAt(k))) == k {
      if k == 12 { assert ClassOfFingerprint(Fingerprint(SignAt(12))) == 12; }
      else if k == 13 { assert ClassOfFingerprint(Fingerprint(SignAt(13))) == 13; }
      else if k == 14 { assert ClassOfFingerprint(Fingerprint(SignAt(14))) == 14; }
      else { assert k == 15; assert ClassOfFingerprint(Fingerprint(SignAt(15))) == 15; }
    }
  }

  lemma FingerprintsFrom16()
    ensures forall k | 16 <= k < 20 :: ClassOfFingerprint(Fingerprint(SignAt(k))) == k
  {
    forall k | 16 <= k < 20 ensures ClassOfFingerprint(Fingerprint(SignAt(k))) == k {
      if k == 16 { assert ClassOfFingerprint(Fingerprint(SignAt(16))) == 16; }
      else if k == 17 { assert ClassOfFingerprint(Fingerprint(SignAt(17))) == 17; }
      else if k == 18 { assert ClassOfFingerprint(Fingerprint(SignAt(18))) == 18; }
      else { assert k == 19; assert ClassOfFingerprint(Fingerprint(SignAt(19))) == 19; }
    }
  }

  lemma FingerprintsFrom20()
    ensures forall k | 20 <= k < 24 :: ClassOfFingerprint(Fingerprint(SignAt(k))) == k
  {
    forall k | 20 <= k < 24 ensures ClassOfFingerprint(Fingerprint(SignAt(k))) == k {
      if k == 20 { assert ClassOfFingerprint(Fingerprint(SignAt(20))) == 20; }
      else if k == 21 { assert ClassOfFingerprint(Fingerprint(SignAt(21))) == 21; }
      else if k == 22 { assert ClassOfFingerprint(Fingerprint(SignAt(22))) == 22; }
      else { assert k == 23; assert ClassOfFingerprint(Fingerprint(SignAt(23))) == 23; }
    }
  }

  lemma FingerprintsFrom24()
    ensures forall k | 24 <= k < 28 :: ClassOfFingerprint(Fingerprint(SignAt(k))) == k
  {
    forall k | 24 <= k < 28 ensures ClassOfFingerprint(Fingerprint(SignAt(k))) == k {
      if k == 24 { assert ClassOfFingerprint(Fingerprint(SignAt(24))) == 24; }
      else if k == 25 { assert ClassOfFingerprint(Fingerprint(SignAt(25))) == 25; }
      else if k == 26 { assert ClassOfFingerprint(Fingerprint(SignAt(26))) == 26; }
      else { assert k == 27; assert ClassOfFingerprint(Fingerprint(SignAt(27))) == 27; }
    }
  }

  lemma FingerprintsFrom28()
    ensures forall k | 28 <= k < 32 :: ClassOfFingerprint(Fingerprint(SignAt(k))) == k
  {
    forall k | 28 <= k < 32 ensures ClassOfFingerprint(Fingerprint(SignAt(k))) == k {
      if k == 28 { assert ClassOfFingerprint(Fingerprint(SignAt(28))) == 28; }
      else if k == 29 { assert ClassOfFingerprint(Fingerprint(SignAt(29))) == 29; }
      else if k == 30 { assert ClassOfFingerprint(Fingerprint(SignAt(30))) == 30; }
      else { assert k == 31; assert ClassOfFingerprint(Fingerprint(SignAt(31))) == 31; }
    }
  }

  lemma FingerprintsFrom32()
    ensures forall k | 32 <= k < 36 :: ClassOfFingerprint(Fingerprint(SignAt(k))) == k
  {
    forall k | 32 <= k < 36 ensures ClassOfFingerprint(Fingerprint(SignAt(k))) == k {
      if k == 32 { assert ClassOfFingerprint(Fingerprint(SignAt(32))) == 32; }
      else if k == 33 { assert ClassOfFingerprint(Fingerprint(SignAt(33))) == 33; }
      else if k == 34 { assert ClassOfFingerprint(Fingerprint(SignAt(34))) == 34; }
      else { assert k == 35; assert ClassOfFingerprint(Fingerprint(SignAt(35))) == 35; }
    }
  }

  lemma FingerprintsFrom36()
    ensures forall k | 36 <= k < 40 :: ClassOfFingerprint(Fingerprint(SignAt(k))) == k
  {
    forall k | 36 <= k < 40 ensures ClassOfFingerprint(Fingerprint(SignAt(k))) == k {
      if k == 36 { assert ClassOfFingerprint(Fingerprint(SignAt(36))) == 36; }
      else if k == 37 { assert ClassOfFingerprint(Fingerprint(SignAt(37))) == 37; }
      else if k == 38 { assert ClassOfFingerprint(Fingerprint(SignAt(38))) == 38; }
      else { assert k == 39; assert ClassOfFingerprint(Fingerprint(SignAt(39))) == 39; }
    }
  }

  lemma FingerprintsFrom40()
    ensures forall k | 40 <= k < 44 :: ClassOfFingerprint(Fingerprint(SignAt(k))) == k
  {
    forall k | 40 <= k < 44 ensures ClassOfFingerprint(Fingerprint(SignAt(k))) == k {
      if k == 40 { assert ClassOfFingerprint(Fingerprint(SignAt(40))) == 40; }
      else if k == 41 { assert ClassOfFingerprint(Fingerprint(SignAt(41))) == 41; }
      else if k == 42 { assert ClassOfFingerprint(Fingerprint(SignAt(42))) == 42; }
      else { assert k == 43; assert ClassOfFingerprint(Fingerprint(SignAt(43))) == 43; }
    }
  }

  lemma FingerprintsFrom44()
    ensures forall k | 44 <= k < 48 :: ClassOfFingerprint(Fingerprint(SignAt(k))) == k
  {
    forall k | 44 <= k < 48 ensures ClassOfFingerprint(Fingerprint(SignAt(k))) == k {
      if k == 44 { assert ClassOfFingerprint(Fingerprint(SignAt(44))) == 44; }
      else if k == 45 { assert ClassOfFingerprint(Fingerprint(SignAt(45))) == 45; }
      else if k == 46 { assert ClassOfFingerprint(Fingerprint(SignAt(46))) == 46; }
      else { assert k == 47; assert ClassOfFingerprint(Fingerprint(SignAt(47))) == 47; }
    }
  }

  lemma FingerprintsFrom48()
    ensures forall k | 48 <= k < 52 :: ClassOfFingerprint(Fingerprint(SignAt(k))) == k
  {
    forall k | 48 <= k < 52 ensures ClassOfFingerprint(Fingerprint(SignAt(k))) == k {
      if k == 48 { assert ClassOfFingerprint(Fingerprint(SignAt(48))) == 48; }
      else if k == 49 { assert ClassOfFingerprint(Fingerprint(SignAt(49))) == 49; }
      else if k == 50 { assert ClassOfFingerprint(Fingerprint(SignAt(50))) == 50; }
      else { assert k == 51; assert ClassOfFingerprint(Fingerprint(SignAt(51))) == 51; }
    }
  }

  lemma FingerprintsFrom52()
    ensures forall k | 52 <= k < 56 :: ClassOfFingerprint(Fingerprint(SignAt(k))) == k
  {
    forall k | 52 <= k < 56 ensures ClassOfFingerprint(Fingerprint(SignAt(k))) == k {
      if k == 52 { assert ClassOfFingerprint(Fingerprint(SignAt(52))) == 52; }
      else if k == 53 { assert ClassOfFingerprint(Fingerprint(SignAt(53))) == 53; }
      else if k == 54 { assert ClassOfFingerprint(Fingerprint(SignAt(54))) == 54; }
      else { assert k == 55; assert ClassOfFingerprint(Fingerprint(SignAt(55))) == 55; }
    }
  }

  lemma FingerprintsFrom56()
    ensures forall k | 56 <= k < 60 :: ClassOfFingerprint(Fingerprint(SignAt(k))) == k
  {
    forall k | 56 <= k < 60 ensures ClassOfFingerprint(Fingerprint(SignAt(k))) == k {
      if k == 56 { assert ClassOfFingerprint(Fingerprint(SignAt(56))) == 56; }
      else if k == 57 { assert ClassOfFingerprint(Fingerprint(SignAt(57))) == 57; }
      else if k == 58 { assert ClassOfFingerprint(Fingerprint(SignAt(58))) == 58; }
      else { assert k == 59; assert ClassOfFingerprint(Fingerprint(SignAt(59))) == 59; }
    }
  }

  lemma FingerprintsFrom60()
    ensures forall k | 60 <= k < 64 :: ClassOfFingerprint(Fingerprint(SignAt(k))) == k
  {
    forall k | 60 <= k < 64 ensures ClassOfFingerprint(Fingerprint(SignAt(k))) == k {
      if k == 60 { assert ClassOfFingerprint(Fingerprint(SignAt(60))) == 60; }
      else if k == 61 { assert ClassOfFingerprint(Fingerprint(SignAt(61))) == 61; }
      else if k == 62 { assert ClassOfFingerprint(Fingerprint(SignAt(62))) == 62; }
      else { assert k == 63; assert ClassOfFingerprint(Fingerprint(SignAt(63))) == 63; }
    }
  }

  lemma FingerprintsFrom64()
    ensures forall k | 64 <= k < 68 :: ClassOfFingerprint(Fingerprint(SignAt(k))) == k
  {
    forall k | 64 <= k < 68 ensures ClassOfFingerprint(Fingerprint(SignAt(k))) == k {
      if k == 64 { assert ClassOfFingerprint(Fingerprint(SignAt(64))) == 64; }
      else if k == 65 { assert ClassOfFingerprint(Fingerprint(SignAt(65))) == 65; }
      else if k == 66 { assert ClassOfFingerprint(Fingerprint(SignAt(66))) == 66; }
      else { assert k == 67; assert ClassOfFingerprint(Fingerprint(SignAt(67))) == 67; }
    }
  }

  lemma FingerprintsFrom68()
    ensures forall k | 68 <= k < 72 :: ClassOfFingerprint(Fingerprint(SignAt(k))) == k
  {
    forall k | 68 <= k < 72 ensures ClassOfFingerprint(Fingerprint(SignAt(k))) == k {
      if k == 68 { assert ClassOfFingerprint(Fingerprint(SignAt(68))) == 68; }
      else if k == 69 { assert ClassOfFingerprint(Fingerprint(SignAt(69))) == 69; }
      else if k == 70 { assert ClassOfFingerprint(Fingerprint(SignAt(70))) == 70; }
      else { assert k == 71; assert ClassOfFingerprint(Fingerprint(SignAt(71))) == 71; }
    }
  }

  lemma FingerprintsFrom72()
    ensures forall k | 72 <= k < 76 :: ClassOfFingerprint(Fingerprint(SignAt(k))) == k
  {
    forall k | 72 <= k < 76 ensures ClassOfFingerprint(Fingerprint(SignAt(k))) == k {
      if k == 72 { assert ClassOfFingerprint(Fingerprint(SignAt(72))) == 72; }
      else if k == 73 { assert ClassOfFingerprint(Fingerprint(SignAt(73))) == 73; }
      else if k == 74 { assert ClassOfFingerprint(Fingerprint(SignAt(74))) == 74; }
      else { assert k == 75; assert ClassOfFingerprint(Fingerprint(SignAt(75))) == 75; }
    }
  }

  lemma FingerprintsFrom76()
    ensures forall k | 76 <= k < 80 :: ClassOfFingerprint(Fingerprint(SignAt(k))) == k
  {
    forall k | 76 <= k < 80 ensures ClassOfFingerprint(Fingerprint(SignAt(k))) == k {
      if k == 76 { assert ClassOfFingerprint(Fingerprint(SignAt(76))) == 76; }
      else if k == 77 { assert ClassOfFingerprint(Fingerprint(SignAt(77))) == 77; }
      else if k == 78 { assert ClassOfFingerprint(Fingerprint(SignAt(78))) == 78; }
      else { assert k == 79; assert ClassOfFingerprint(Fingerprint(SignAt(79))) == 79; }
    }
  }

  lemma FingerprintsFrom80()
    ensures forall k | 80 <= k < 84 :: ClassOfFingerprint(Fingerprint(SignAt(k))) == k
  {
    forall k | 80 <= k < 84 ensures ClassOfFingerprint(Fingerprint(SignAt(k))) == k {
      if k == 80 { assert ClassOfFingerprint(Fingerprint(SignAt(80))) == 80; }
      else if k == 81 { assert ClassOfFingerprint(Fingerprint(SignAt(81))) == 81; }
      else if k == 82 { assert ClassOfFingerprint(Fingerprint(SignAt(82))) == 82; }
      else { assert k == 83; assert ClassOfFingerprint(Fingerprint(SignAt(83))) == 83; }
    }
  }

  lemma FingerprintsFrom84()
    ensures forall k | 84 <= k < 88 :: ClassOfFingerprint(Fingerprint(SignAt(k))) == k
  {
    forall k | 84 <= k < 88 ensures ClassOfFingerprint(Fingerprint(SignAt(k))) == k {
      if k == 84 { assert ClassOfFingerprint(Fingerprint(SignAt(84))) == 84; }
      else if k == 85 { assert ClassOfFingerprint(Fingerprint(SignAt(85))) == 85; }
      else if k == 86 { assert ClassOfFingerprint(Fingerprint(SignAt(86))) == 86; }
      else { assert k == 87; assert ClassOfFingerprint(Fingerprint(SignAt(87))) == 87; }
    }
  }

  lemma FingerprintsFrom88()
    ensures forall k | 88 <= k < 92 :: ClassOfFingerprint(Fingerprint(SignAt(k))) == k
  {
    forall k | 88 <= k < 92 ensures ClassOfFingerprint(Fingerprint(SignAt(k))) == k {
      if k == 88 { assert ClassOfFingerprint(Fingerprint(SignAt(88))) == 88; }
      else if k == 89 { assert ClassOfFingerprint(Fingerprint(SignAt(89))) == 89; }
      else if k == 90 { assert ClassOfFingerprint(Fingerprint(SignAt(90))) == 90; }
      else { assert k == 91; assert ClassOfFingerprint(Fingerprint(SignAt(91))) == 91; }
    }
  }

  lemma FingerprintsFrom92()
    ensures forall k | 92 <= k < 96 :: ClassOfFingerprint(Fingerprint(SignAt(k))) == k
  {
    forall k | 92 <= k < 96 ensures ClassOfFingerprint(Fingerprint(SignAt(k))) == k {
      if k == 92 { assert ClassOfFingerprint(Fingerprint(SignAt(92))) == 92; }
      else if k == 93 { assert ClassOfFingerprint(Fingerprint(SignAt(93))) == 93; }
      else if k == 94 { assert ClassOfFingerprint(Fingerprint(SignAt(94))) == 94; }
      else { assert k == 95; assert ClassOfFingerprint(Fingerprint(SignAt(95))) == 95; }
    }
  }

  lemma FingerprintsFrom96()
    ensures forall k | 96 <= k < 100 :: ClassOfFingerprint(Fingerprint(SignAt(k))) == k
  {
    forall k | 96 <= k < 100 ensures ClassOfFingerprint(Fingerprint(SignAt(k))) == k {
      if k == 96 { assert ClassOfFingerprint(Fingerprint(SignAt(96))) == 96; }
      else if k == 97 { assert ClassOfFingerprint(Fingerprint(SignAt(97))) == 97; }
      else if k == 98 { assert ClassOfFingerprint(Fingerprint(SignAt(98))) == 98; }
      else { assert k == 99; assert ClassOfFingerprint(Fingerprint(SignAt(99))) == 99; }
    }
  }

  lemma FingerprintsFrom100()
    ensures forall k | 100 <= k < 103 :: ClassOfFingerprint(Fingerprint(SignAt(k))) == k
  {
    forall k | 100 <= k < 103 ensures ClassOfFingerprint(Fingerprint(SignAt(k))) == k {
      if k == 100 { assert ClassOfFingerprint(Fingerprint(SignAt(100))) == 100; }
      else if k == 101 { assert ClassOfFingerprint(Fingerprint(SignAt(101))) == 101; }
      else { assert k == 102; assert ClassOfFingerprint(Fingerprint(SignAt(102))) == 102; }
    }
  }

  /** Every class has its own label: `SIGN_DICT` repeats no value. */
  lemma SignLabelsDistinct()
    ensures Injective(SignAt, ClassCount)
  {
    FingerprintsFrom0();
    FingerprintsFrom4();
    FingerprintsFrom8();
    FingerprintsFrom12();
    FingerprintsFrom16();
    FingerprintsFrom20();
    FingerprintsFrom24();
    FingerprintsFrom28();
    FingerprintsFrom32();
    FingerprintsFrom36();
    FingerprintsFrom40();
    FingerprintsFrom44();
    FingerprintsFrom48();
    FingerprintsFrom52();
    FingerprintsFrom56();
    FingerprintsFrom60();
    FingerprintsFrom64();
    FingerprintsFrom68();
    FingerprintsFrom72();
    FingerprintsFrom76();
    FingerprintsFrom80();
    FingerprintsFrom84();
    FingerprintsFrom88();
    FingerprintsFrom92();
    FingerprintsFrom96();
    FingerprintsFrom100();
    forall i, j | 0 <= i < j < ClassCount ensures SignAt(i) != SignAt(j) {
      assert ClassOfFingerprint(Fingerprint(SignAt(i))) == i;
      assert ClassOfFingerprint(Fingerprint(SignAt(j))) == j;
    }
  }

  /** `SIGN_TO_INDEX[SIGN_DICT[k]] == k` for every class, and the inverse has 103 entries. */
  lemma SignRoundTrip()
    ensures forall k | 0 <= k < ClassCount :: SignAt(k) in SignToIndex() && SignToIndex()[SignAt(k)] == k
    ensures |SignToIndex()| == ClassCount
  {
    SignLabelsDistinct();
    var labelOf := SignAt;
    InverseOfInjective(labelOf, ClassCount);
    forall k | 0 <= k < ClassCount ensures SignAt(k) in SignToIndex() && SignToIndex()[SignAt(k)] == k {
      assert labelOf(k) == SignAt(k);
    }
  }

  /** `SIGN_DICT[SIGN_TO_INDEX[v]] == v` for every label in the inverse. */
  lemma IndexRoundTrip()
    ensures forall v | v in SignToIndex() :: SignToIndex()[v] in SignTable() && SignTable()[SignToIndex()[v]] == v
  {
    InverseThroughTable(SignAt, ClassCount);
  }

  /** Looking a value's key up in the table gives the value back. */
  lemma InverseThroughTable(labelOf: int -> string, n: nat)
    ensures forall v | v in Inverse(labelOf, n) :: Inverse(labelOf, n)[v] in Table(labelOf, n) && Table(labelOf, n)[Inverse(labelOf, n)[v]] == v
  {
    InverseEntries(labelOf, n);
  }

  /** Class 102 is "UNKNOWN", and "UNKNOWN" maps back to 102. */
  lemma UnknownClassLabel()
    ensures SignAt(UnknownClass) == "UNKNOWN"
    ensures "UNKNOWN" in SignToIndex() && SignToIndex()["UNKNOWN"] == UnknownClass
  {
    SignRoundTrip();
    assert SignAt(UnknownClass) == "UNKNOWN";
  }

  /** `SIGN_DICT_NO_ACCENT` has the same keys as `SIGN_DICT`: 0 through 102. */
  lemma NoAccentSameKeys()
    ensures forall k :: k in NoAccentTable() <==> k in SignTable()
    ensures |NoAccentTable()| == |SignTable()| == ClassCount
  {
  }

  /** `SIGN_DICT_NO_ACCENT` repeats "Nam" (keys 43 and 70), so it is not injective, and an inverse
      built from it would send "Nam" to 70: key 43 would not round-trip. */
  lemma NoAccentInverseLosesNam()
    ensures NoAccentAt(43) == NoAccentAt(70) == "Nam"
    ensures !Injective(NoAccentAt, ClassCount)
    ensures "Nam" in Inverse(NoAccentAt, ClassCount) && Inverse(NoAccentAt, ClassCount)["Nam"] != 43
  {
    assert NoAccentAt(43) == NoAccentAt(70) == "Nam";
    RepeatedValueLosesEarlierKey(NoAccentAt, ClassCount, 43, 70);
  }

  /** It also repeats "Yeu" (keys 59 and 94): "Yeu" would go to 94, so key 59 would not round-trip. */
  lemma NoAccentInverseLosesYeu()
    ensures NoAccentAt(59) == NoAccentAt(94) == "Yeu"
    ensures "Yeu" in Inverse(NoAccentAt, ClassCount) && Inverse(NoAccentAt, ClassCount)["Yeu"] != 59
  {
    assert NoAccentAt(59) == NoAccentAt(94) == "Yeu";
    RepeatedValueLosesEarlierKey(NoAccentAt, ClassCount, 59, 94);
  }
}
