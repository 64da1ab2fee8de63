// The built-in seed data the content store writes the first time a collection is read.

module Defaults {
  import opened Optional
  import opened Types

  const DEFAULT_PORTFOLIOS: seq<PortfolioItem> := [
    PortfolioItem("p1", "https://images.unsplash.com/photo-1460925895917-afdab827c52f?auto=format&fit=crop&w=800&q=80",
      "Startup Dashboard Analytics", "Web App", None),
    PortfolioItem("p2", "https://images.unsplash.com/photo-1522542550221-31fd19575a2d?auto=format&fit=crop&w=800&q=80",
      "Modern E-Commerce", "Toko Online", None),
    PortfolioItem("p3", "https://images.unsplash.com/photo-1551288049-bebda4e38f71?auto=format&fit=crop&w=800&q=80",
      "Corporate Profile PT Maju", "Company Profile", None)
  ]

  const WEBSITE_SERVICE: Service := Service(
    "1",
    "Jasa Pembuatan Website",
    "jasa-pembuatan-website",
    Code,
    None,
    Some("Jasa Pembuatan Website Profesional & SEO Friendly | MazmoDev"),
    Some(["jasa website", "buat website toko online", "web developer jakarta", "jasa website seo"]),
    "Jasa pembuatan website profesional, cepat, dan SEO friendly. Tingkatkan kredibilitas bisnis Anda dengan desain modern dan performa tinggi.",
    "<p>Kami membangun website modern menggunakan teknologi terbaru seperti <strong>React, Next.js, dan Tailwind CSS</strong>. Website Anda akan dioptimalkan untuk kecepatan (Core Web Vitals) dan mesin pencari (Google).</p><p>Cocok untuk Company Profile, Toko Online, hingga Web App kompleks. Kami memastikan struktur kode yang bersih agar mudah diindeks oleh Google dan nyaman digunakan oleh pengunjung.</p>",
    Some("Jasa Pembuatan Website Company Profile & UMKM Terpercaya"),
    Some("<p>Di era digital saat ini, memiliki website bukan lagi pilihan, melainkan keharusan. <strong>MazmoDev</strong> hadir sebagai solusi jasa pembuatan website profesional yang mengutamakan performa, desain estetis, dan struktur SEO yang kuat.</p><p>Kami memahami bahwa setiap bisnis memiliki keunikan. Oleh karena itu, layanan kami mencakup:</p><ul class=\"list-disc pl-5 mb-4\"><li><strong>Desain Custom:</strong> Disesuaikan dengan branding identitas perusahaan Anda.</li><li><strong>Kecepatan Tinggi:</strong> Website dioptimalkan untuk loading di bawah 2 detik.</li><li><strong>Mobile Responsive:</strong> Tampilan sempurna di semua perangkat (HP, Tablet, Desktop).</li></ul><p>Hubungi kami sekarang untuk konsultasi gratis mengenai kebutuhan digital bisnis Anda.</p>"),
    [ ServiceFeature("Super Cepat", "Optimasi loading speed < 1 detik untuk retensi pengunjung maksimal.", None),
      ServiceFeature("SEO Optimized", "Struktur kode ramah Google agar mudah naik ranking.", None),
      ServiceFeature("Mobile Friendly", "Tampilan responsif sempurna di HP, Tablet, dan Desktop.", None) ],
    [ ServiceBenefit("Kredibilitas Meningkat", "Bisnis terlihat lebih profesional dan terpercaya di mata calon klien."),
      ServiceBenefit("Buka 24 Jam", "Website bekerja mempromosikan bisnis Anda bahkan saat Anda tidur.") ],
    DEFAULT_PORTFOLIOS,
    [ ServiceFaq("Berapa lama proses pembuatan website?", "Untuk Company Profile sekitar 3-5 hari kerja. Untuk Toko Online atau Custom Web sekitar 7-14 hari kerja tergantung kompleksitas."),
      ServiceFaq("Apakah dapat gratis domain?", "Ya, semua paket kami sudah termasuk gratis Domain .com selama 1 tahun.") ],
    [ PricingPlan("p1", "Starter", "Rp 1.500.000",
        [ PricingFeature("Landing Page (1 Halaman)", true),
          PricingFeature("Gratis Domain .com", true),
          PricingFeature("SSL Security", true),
          PricingFeature("SEO Basic", false) ],
        None),
      PricingPlan("p2", "Business", "Rp 3.500.000",
        [ PricingFeature("Multi Page (5 Halaman)", true),
          PricingFeature("Gratis Domain & Hosting", true),
          PricingFeature("Optimasi SEO Advanced", true),
          PricingFeature("Integrasi Analytics", true) ],
        Some(true)) ])

  const RENTAL_SERVICE: Service := Service(
    "sub1",
    "Jasa Website Rental Mobil",
    "jasa-website-rental-mobil",
    Code,
    Some("1"),
    Some("Jasa Buat Website Rental Mobil Murah & Mewah"),
    Some(["website rental mobil", "jasa web rental", "aplikasi rental mobil"]),
    "Solusi website khusus pengusaha rental mobil. Fitur booking online, katalog armada, dan integrasi WhatsApp.",
    "<p>Tingkatkan pemesanan rental mobil Anda dengan website khusus yang dirancang untuk konversi. Dilengkapi fitur hitung tarif otomatis dan booking via WA.</p>",
    None, None, [], [], [], [], [])

  const CLINIC_SERVICE: Service := Service(
    "sub2",
    "Jasa Website Apotik & Klinik",
    "jasa-website-apotik",
    Code,
    Some("1"),
    Some("Jasa Pembuatan Website Klinik & Apotik"),
    Some(["website apotik", "website klinik", "web dokter"]),
    "Website profesional untuk Apotik, Klinik, dan Praktik Dokter. Tampilkan jadwal, layanan, dan katalog obat.",
    "<p>Digitalisasi layanan kesehatan Anda. Memudahkan pasien mencari informasi jadwal dokter dan ketersediaan layanan.</p>",
    None, None, [], [], [], [], [])

  const ADS_SERVICE: Service := Service(
    "2",
    "Jasa Iklan (ADS)",
    "jasa-iklan-ads",
    Megaphone,
    None,
    Some("Jasa Iklan Google & Facebook Ads Terpercaya"),
    Some(["jasa google ads", "jasa fb ads", "digital marketing"]),
    "Tingkatkan omset drastis dengan Jasa Google Ads, Facebook Ads, dan TikTok Ads tertarget.",
    "Tim advertiser kami yang berpengalaman akan membantu Anda menargetkan audiens yang tepat untuk memaksimalkan ROI bisnis Anda. Kami menggunakan strategi data-driven.",
    Some("Solusi Iklan Digital (Paid Traffic)"),
    Some("<p>Jangkau pelanggan potensial secara instan. Layanan kami fokus pada konversi, bukan sekadar klik.</p>"),
    [ ServiceFeature("Tertarget", "Iklan hanya muncul ke orang yang mencari produk Anda.", None),
      ServiceFeature("Laporan Transparan", "Akses real-time ke performa iklan Anda.", None) ],
    [], [], [],
    [ PricingPlan("a1", "Basic Ads", "Rp 2.000.000",
        [ PricingFeature("Setup Google Ads", true),
          PricingFeature("Riset Keyword Basic", true),
          PricingFeature("Laporan Bulanan", true) ],
        None) ])

  const BRANDING_SERVICE: Service := Service(
    "3",
    "Branding & Identitas",
    "branding-identity",
    Palette,
    None,
    None,
    None,
    "Bangun citra merek yang kuat dan tak terlupakan dengan layanan Branding Identity lengkap.",
    "Layanan branding komprehensif mulai dari desain logo, panduan gaya (style guide), hingga strategi komunikasi merek.",
    None, None, [], [], [], [], [])

  const DEFAULT_SERVICES: seq<Service> :=
    [WEBSITE_SERVICE, RENTAL_SERVICE, CLINIC_SERVICE, ADS_SERVICE, BRANDING_SERVICE]

  const DEFAULT_BLOGS: seq<BlogPost> := [
    BlogPost("1", "Pentingnya SEO untuk Bisnis Lokal di 2024", "pentingnya-seo-bisnis-lokal", "SEO",
      "Mengapa bisnis lokal harus peduli dengan SEO? Simak strategi jitu memenangkan pasar lokal dan tampil di Google Maps.",
      "<p>SEO Lokal adalah kunci untuk bisnis kecil dan menengah...</p><p>Dengan Google Maps dan pencarian berbasis lokasi, pelanggan dapat menemukan toko Anda dengan mudah.</p>",
      "Admin Mazmo", "2024-03-15",
      "https://images.unsplash.com/photo-1571721795195-a2d8d14abd75?auto=format&fit=crop&w=1000&q=80",
      ["SEO", "Bisnis", "Digital Marketing"], Published),
    BlogPost("2", "5 Tips Facebook Ads Anti Boncos", "tips-fb-ads-anti-boncos", "Digital Marketing",
      "Pelajari cara menargetkan audience yang tepat agar budget iklan Anda tidak terbuang percuma.",
      "<p>Facebook Ads memiliki fitur targeting yang sangat detail...</p>",
      "Advertiser Team", "2024-03-20",
      "https://images.unsplash.com/photo-1563986768609-322da13575f3?auto=format&fit=crop&w=1000&q=80",
      ["Facebook Ads", "Marketing", "Paid Traffic"], Published)
  ]

  const DEFAULT_CATEGORIES: seq<string> :=
    ["Teknologi", "Digital Marketing", "SEO", "Branding", "Social Media", "Bisnis", "Tutorial"]

  const DEFAULT_CONFIG: SiteConfig := SiteConfig(
    "628123456789",
    "hello@mazmodev.com",
    "Jakarta, Indonesia",
    Some(""),
    Some("https://instagram.com/mazmodev"),
    Some(""),
    Some("https://linkedin.com/company/mazmodev"),
    Some(""),
    Some(""))

  const DEFAULT_TESTIMONIALS: seq<Testimonial> := [
    Testimonial("1", "Budi Santoso", "CEO, PT Maju Jaya", "Website kami sekarang jauh lebih cepat dan mendatangkan banyak leads dari Google. Sangat puas dengan layanan SEO MazmoDev.", 5),
    Testimonial("2", "Siti Aminah", "Owner, Batik Cantik", "Penjualan online meningkat 200% setelah dibantu setup Facebook Ads. Timnya sangat responsif dan edukatif.", 5),
    Testimonial("3", "Rizky Pratama", "Founder, TechStart", "Desain branding yang dibuat sangat on-point dan modern. Benar-benar merepresentasikan visi startup kami.", 5)
  ]

  const DEFAULT_HOME_STATS: seq<HomeStat> := [
    HomeStat("1", "Tahun Pengalaman", "5+", "Trophy", "text-yellow-500"),
    HomeStat("2", "Project Selesai", "150+", "Check", "text-green-500"),
    HomeStat("3", "Klien Puas", "80+", "Users", "text-blue-500"),
    HomeStat("4", "Support Cepat", "24/7", "Zap", "text-purple-500")
  ]

  const DEFAULT_PROCESS_STEPS: seq<ProcessStep> := [
    ProcessStep("01", "Konsultasi", "Diskusi mendalam tentang tujuan dan kebutuhan bisnis Anda.", "Briefcase"),
    ProcessStep("02", "Strategi", "Merancang blueprint dan roadmap solusi digital.", "Target"),
    ProcessStep("03", "Eksekusi", "Pengembangan website atau setup iklan oleh ahli.", "Code"),
    ProcessStep("04", "Optimasi", "Monitoring dan perbaikan berkelanjutan untuk hasil maksimal.", "BarChart")
  ]

  const DEFAULT_HOME_CONTENT: HomeContent := HomeContent(
    "Kami Membangun Masa Depan Digital",
    "Partner strategis untuk pertumbuhan bisnis Anda melalui Website High-Performance, Iklan Tertarget, dan Identitas Brand yang Ikonik.",
    "Lihat Layanan & Harga",
    true,
    [],
    DEFAULT_PROCESS_STEPS)

  const DEFAULT_AUTH: AdminCredentials := AdminCredentials("admin", "admin123")
}
